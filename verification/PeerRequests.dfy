/**
 Bookkeeping of channel requests: a worker has calls waiting for a device exactly while one
 request of its own for that device is outstanding, wherever that request has got to, and in
 every run (rate limiting, refusals, revocation, crashes and reloads included).
 */
module PeerRequests {
  import opened Wrappers
  import opened PeerBrokering

  function Count<T>(q: seq<T>, p: T -> bool): nat {
    if q == [] then 0 else Count(q[..|q| - 1], p) + if p(q[|q| - 1]) then 1 else 0
  }

  lemma CountConcat<T>(q: seq<T>, r: seq<T>, p: T -> bool)
    ensures Count(q + r, p) == Count(q, p) + Count(r, p)
  {
    if r == [] {
      assert q + r == q;
    } else {
      assert (q + r)[..|q + r| - 1] == q + r[..|r| - 1];
      CountConcat(q, r[..|r| - 1], p);
    }
  }

  lemma {:induction false} CountOne<T>(m: T, p: T -> bool)
    ensures Count([m], p) == if p(m) then 1 else 0
  {
  }

  lemma {:induction false} CountPush<T>(q: seq<T>, m: T, p: T -> bool)
    ensures Count(q + [m], p) == Count(q, p) + if p(m) then 1 else 0
  {
  }

  lemma {:induction false} CountRemove<T>(q: seq<T>, i: nat, p: T -> bool)
    requires i < |q|
    ensures Count(q, p) == Count(q[..i] + q[i + 1..], p) + if p(q[i]) then 1 else 0
  {
    assert q == q[..i] + ([q[i]] + q[i + 1..]);
    CountConcat(q[..i], [q[i]] + q[i + 1..], p);
    CountConcat([q[i]], q[i + 1..], p);
    CountConcat(q[..i], q[i + 1..], p);
    CountOne(q[i], p);
  }

  // ----- where a request can be -----

  function Requests(d: Device): ToMain -> bool { (m: ToMain) => m.ChannelRequest? && m.device == d }

  function Checks(a: Worker, d: Device): Check -> bool { (c: Check) => c.caller == a && c.device == d }

  function Answers(d: Device): ToWorker -> bool {
    (m: ToWorker) => (m.ChannelGrant? || m.ChannelDeny?) && m.device == d
  }

  function Awaited(awaiting: map<nat, Await>, n: nat, a: Worker, d: Device): nat {
    if n == 0 then 0
    else
      Awaited(awaiting, n - 1, a, d) +
      if n - 1 in awaiting && awaiting[n - 1].caller == a && awaiting[n - 1].device == d then 1 else 0
  }

  /** The requests of worker `a` for device `d` that have not been answered yet. */
  function Outstanding(s: Sys, a: Worker, d: Device): nat {
    Count(Queue(s.outbox, a), Requests(d)) + Count(s.main.checks, Checks(a, d))
    + Awaited(s.main.awaiting, s.main.nextAllow, a, d) + Count(Queue(s.inbox, a), Answers(d))
  }

  ghost predicate Exact(s: Sys, a: Worker, d: Device) {
    Outstanding(s, a, d) == if At(a, d) in s.ends.waiting then 1 else 0
  }

  ghost predicate Numbered(m: Main) { forall id :: id in m.awaiting ==> id < m.nextAllow }

  // ----- awaited allows -----

  lemma AwaitedSame(aw: map<nat, Await>, aw': map<nat, Await>, n: nat, a: Worker, d: Device)
    requires forall id :: id < n ==> (id in aw <==> id in aw') && (id in aw ==> aw[id] == aw'[id])
    ensures Awaited(aw, n, a, d) == Awaited(aw', n, a, d)
  {
  }

  lemma AwaitedRemove(aw: map<nat, Await>, id: nat, n: nat, a: Worker, d: Device)
    requires id in aw
    ensures Awaited(aw, n, a, d) ==
      Awaited(aw - {id}, n, a, d) + if id < n && aw[id].caller == a && aw[id].device == d then 1 else 0
  {
  }

  lemma AwaitedEnds(aw: map<nat, Await>, aw': map<nat, Await>, n: nat, w: Worker, a: Worker, d: Device, code: string)
    requires aw' == map id | id in aw && aw[id].callee != w :: aw[id]
    ensures Awaited(aw, n, a, d) == Awaited(aw', n, a, d) + Count(Denials(aw, n, w, a, code), Answers(d))
  {
    if n > 0 {
      AwaitedEnds(aw, aw', n - 1, w, a, d, code);
      if n - 1 in aw && aw[n - 1].callee == w && aw[n - 1].caller == a {
        CountPush(Denials(aw, n - 1, w, a, code), ChannelDeny(aw[n - 1].device, code), Answers(d));
      } else {
        assert Denials(aw, n, w, a, code) == Denials(aw, n - 1, w, a, code);
      }
    }
  }

  // ----- messages sent -----

  lemma {:induction false} Sends(s: Sys, w: Worker, m: ToWorker, a: Worker, d: Device)
    ensures var s' := s.(inbox := Push(s.inbox, w, m));
      Outstanding(s', a, d) == Outstanding(s, a, d) + if w == a && Answers(d)(m) then 1 else 0
  {
  }

  lemma {:induction false} InboxCounts(s: Sys, s': Sys, a: Worker, d: Device, more: seq<ToWorker>)
    requires s' == s.(main := s'.main, inbox := s'.inbox) && s'.main == s.main.(registry := s'.main.registry, deviceMap := s'.main.deviceMap)
    requires Queue(s'.inbox, a) == Queue(s.inbox, a) + more && forall m :: m in more ==> !Answers(d)(m)
    ensures Outstanding(s', a, d) == Outstanding(s, a, d)
  {
    CountConcat(Queue(s.inbox, a), more, Answers(d));
    NoneCounted(more, Answers(d));
  }

  lemma NoneCounted<T>(q: seq<T>, p: T -> bool)
    requires forall m :: m in q ==> !p(m)
    ensures Count(q, p) == 0
  {
  }

  // ----- the main thread -----

  lemma {:induction false} DenyCounts(s: Sys, w: Worker, device: Device, code: string, a: Worker, d: Device)
    ensures Outstanding(Deny(s, w, device, code), a, d) == Outstanding(s, a, d) + if w == a && device == d then 1 else 0
    ensures Deny(s, w, device, code).ends == s.ends
  {
  }

  lemma {:induction false} AddCheckCounts(s: Sys, c: Check, a: Worker, d: Device)
    ensures Outstanding(AddCheck(s, c), a, d) == Outstanding(s, a, d) + if c.caller == a && c.device == d then 1 else 0
    ensures AddCheck(s, c).ends == s.ends
  {
  }

  lemma {:induction false} RequestCounts(s: Sys, w: Worker, device: Device, key: Key, missing: string, a: Worker, d: Device)
    ensures Outstanding(HandleRequest(s, w, device, key, missing), a, d)
         == Outstanding(s, a, d) + if w == a && device == d then 1 else 0
    ensures HandleRequest(s, w, device, key, missing).ends == s.ends
  {
    if device !in s.main.deviceMap {
      if missing != "DEVICE_NOT_FOUND" {
        AddCheckCounts(s, Check(w, device, key, None, missing), a, d);
      } else {
        DenyCounts(s, w, device, missing, a, d);
      }
    } else if s.main.deviceMap[device] == w {
      DenyCounts(s, w, device, "PEER_SELF_TARGET", a, d);
    } else {
      AddCheckCounts(s, Check(w, device, key, Some(s.main.deviceMap[device]), ""), a, d);
    }
  }

  lemma {:induction false} AwaitCounts(s: Sys, s': Sys, x: Await, p: nat, a: Worker, d: Device)
    requires Numbered(s.main) && s'.main.checks == s.main.checks && s'.outbox == s.outbox
    requires s'.main.awaiting == s.main.awaiting[s.main.nextAllow := x] && s'.main.nextAllow == s.main.nextAllow + 1
    requires s'.inbox == Push(s.inbox, x.callee, ChannelAllow(x.caller, x.device, s.main.nextAllow, p))
    ensures Outstanding(s', a, d) == Outstanding(s, a, d) + if x.caller == a && x.device == d then 1 else 0
  {
    CountPush(Queue(s.inbox, x.callee), ChannelAllow(x.caller, x.device, s.main.nextAllow, p), Answers(d));
    AwaitedSame(s.main.awaiting, s'.main.awaiting, s.main.nextAllow, a, d);
  }

  lemma {:induction false} GrantOnOpenCounts(s: Sys, device: Device, key: Key, caller: Worker, callee: Worker, a: Worker, d: Device)
    requires Pair(caller, callee) in s.main.registry && Numbered(s.main)
    ensures var s' := GrantOnOpen(s, device, key, caller, callee);
      && Outstanding(s', a, d) == Outstanding(s, a, d) + (if caller == a && device == d then 1 else 0)
      && s'.ends == s.ends
  {
    var s' := GrantOnOpen(s, device, key, caller, callee);
    if callee in s.main.ended {
      var s1 := s.(main := s'.main, log := s'.log);
      DenyCounts(s1, caller, device, s.main.ended[callee], a, d);
    } else {
      AwaitCounts(s, s', Await(callee, caller, device), s.main.registry[Pair(caller, callee)].port, a, d);
    }
  }

  lemma {:induction false} GrantNewCounts(s: Sys, device: Device, key: Key, caller: Worker, callee: Worker, a: Worker, d: Device)
    ensures var s' := GrantNew(s, device, key, caller, callee);
      && Outstanding(s', a, d) == Outstanding(s, a, d) + (if caller == a && device == d then 1 else 0)
      && s'.ends == s.ends
  {
    var open := ChannelOpen(caller, key, device, s.main.nextPort);
    var s1 := s.(inbox := Push(s.inbox, callee, open));
    Sends(s, callee, open, a, d);
    Sends(s1, caller, ChannelGrant(device, callee, Some(s.main.nextPort)), a, d);
  }

  lemma {:induction false} AuthCounts(s: Sys, i: nat, ok: bool, code: string, a: Worker, d: Device)
    requires i < |s.main.checks| && Numbered(s.main)
    ensures Outstanding(Authenticated(s, i, ok, code), a, d) == Outstanding(s, a, d)
    ensures Authenticated(s, i, ok, code).ends == s.ends
  {
    var c := s.main.checks[i];
    var s1 := s.(main := s.main.(checks := s.main.checks[..i] + s.main.checks[i + 1..]));
    CountRemove(s.main.checks, i, Checks(a, d));
    if !ok {
      DenyCounts(s1, c.caller, c.device, code, a, d);
    } else if c.callee.None? {
      DenyCounts(s1, c.caller, c.device, c.code, a, d);
    } else if Pair(c.caller, c.callee.value) in s1.main.registry {
      GrantOnOpenCounts(s1, c.device, c.key, c.caller, c.callee.value, a, d);
    } else {
      GrantNewCounts(s1, c.device, c.key, c.caller, c.callee.value, a, d);
    }
  }

  lemma {:induction false} AllowedCounts(s: Sys, id: nat, a: Worker, d: Device)
    requires Numbered(s.main)
    ensures Outstanding(Allowed(s, id), a, d) == Outstanding(s, a, d)
  {
    if id in s.main.awaiting {
      var aw := s.main.awaiting[id];
      AwaitedRemove(s.main.awaiting, id, s.main.nextAllow, a, d);
      CountPush(Queue(s.inbox, aw.caller), ChannelGrant(aw.device, aw.callee, None), Answers(d));
    }
  }

  lemma {:induction false} CloseRevokedCounts(s: Sys, pair: Pair, port: nat, a: Worker, d: Device)
    ensures Outstanding(CloseRevoked(s, pair, port), a, d) == Outstanding(s, a, d)
    ensures CloseRevoked(s, pair, port).ends == s.ends
  {
    if pair in s.main.registry && s.main.registry[pair].port == port {
      var m1, m2 := Invalidate(pair.other, None), Invalidate(pair.one, Some(port));
      var s1 := s.(main := s.main.(registry := s.main.registry - {pair}));
      var s2 := s1.(inbox := Push(s.inbox, pair.one, m1));
      Sends(s1, pair.one, m1, a, d);
      Sends(s2, pair.other, m2, a, d);
    }
  }

  lemma {:induction false} InvalidateWorkerCounts(s: Sys, w: Worker, a: Worker, d: Device)
    ensures Outstanding(InvalidateWorker(s, w), a, d) == Outstanding(s, a, d)
  {
    InvalidateWorkerSends(s, w, a);
    InboxCounts(s, InvalidateWorker(s, w), a, d, Invalidations(s.main.registry, w, a));
  }

  lemma {:induction false} InvalidateWorkerSends(s: Sys, w: Worker, a: Worker)
    ensures Queue(InvalidateWorker(s, w).inbox, a) == Queue(s.inbox, a) + Invalidations(s.main.registry, w, a)
  {
  }

  lemma {:induction false} WorkerEndsCounts(s: Sys, w: Worker, code: string, a: Worker, d: Device)
    requires Numbered(s.main)
    ensures Outstanding(WorkerEnds(s, w, code), a, d) == Outstanding(s, a, d)
  {
    if w !in s.main.ended {
      var s', m := WorkerEnds(s, w, code), s.main;
      var more := Denials(m.awaiting, m.nextAllow, w, a, code);
      AwaitedEnds(m.awaiting, s'.main.awaiting, m.nextAllow, w, a, d, code);
      DenialsOnlyForCallers(m.awaiting, m.nextAllow, w, a, code);
      assert Queue(s'.inbox, a) == Queue(s.inbox, a) + more;
      CountConcat(Queue(s.inbox, a), more, Answers(d));
    }
  }

  lemma DenialsOnlyForCallers(aw: map<nat, Await>, n: nat, w: Worker, a: Worker, code: string)
    ensures a !in (set id | id in aw :: aw[id].caller) ==> Denials(aw, n, w, a, code) == []
  {
  }

  lemma {:induction false} PopRequest(s: Sys, w: Worker, a: Worker, d: Device)
    requires Queue(s.outbox, w) != []
    ensures var s1 := s.(outbox := s.outbox[w := s.outbox[w][1..]]);
      Outstanding(s, a, d) == Outstanding(s1, a, d) + if w == a && Requests(d)(s.outbox[w][0]) then 1 else 0
  {
    CountRemove(s.outbox[w], 0, Requests(d));
    assert s.outbox[w][..0] + s.outbox[w][1..] == s.outbox[w][1..];
  }

  lemma {:induction false} MainCounts(s: Sys, w: Worker, limited: bool, missing: string, a: Worker, d: Device)
    requires Numbered(s.main)
    ensures Outstanding(MainReceives(s, w, limited, missing), a, d) == Outstanding(s, a, d)
    ensures MainReceives(s, w, limited, missing).ends == s.ends
  {
    if Queue(s.outbox, w) != [] {
      var s1 := s.(outbox := s.outbox[w := s.outbox[w][1..]]);
      PopRequest(s, w, a, d);
      match s.outbox[w][0]
      case ChannelRequest(dev, k) =>
        if limited { DenyCounts(s1, w, dev, "RATE_LIMITED", a, d); } else { RequestCounts(s1, w, dev, k, missing, a, d); }
      case AllowReply(id) => AllowedCounts(s1, id, a, d);
      case SelfInvalidate => InvalidateWorkerCounts(s1, w, a, d);
    }
  }

  // ----- the workers -----

  lemma {:induction false} CallChanges(s: Sys, w: Worker, device: Device, key: Key)
    requires Sound(s.ends)
    ensures var s' := CallDevice(s, w, device, key);
      && s'.main == s.main && s'.inbox == s.inbox
      && (FastPath(s.ends, w, device).Some? ==> s'.outbox == s.outbox && s'.ends.waiting == s.ends.waiting)
      && (FastPath(s.ends, w, device).None? ==>
          && s'.ends.waiting.Keys == s.ends.waiting.Keys + {At(w, device)}
          && s'.outbox == (if At(w, device) in s.ends.waiting then s.outbox
                           else Push(s.outbox, w, ChannelRequest(device, key))))
  {
  }

  lemma {:induction false} AskCounts(s: Sys, s': Sys, w: Worker, device: Device, key: Key, a: Worker, d: Device)
    requires s'.main == s.main && s'.inbox == s.inbox && s'.outbox == Push(s.outbox, w, ChannelRequest(device, key))
    ensures Outstanding(s', a, d) == Outstanding(s, a, d) + if w == a && device == d then 1 else 0
  {
  }

  lemma {:induction false} CallCounts(s: Sys, w: Worker, device: Device, key: Key, a: Worker, d: Device)
    requires Sound(s.ends) && Exact(s, a, d)
    ensures Exact(CallDevice(s, w, device, key), a, d)
  {
    var s' := CallDevice(s, w, device, key);
    CallChanges(s, w, device, key);
    if FastPath(s.ends, w, device).None? && At(w, device) !in s.ends.waiting {
      AskCounts(s, s', w, device, key, a, d);
    }
    assert At(a, d) in s'.ends.waiting <==> At(a, d) in s'.ends.waiting.Keys;
    assert At(a, d) in s.ends.waiting <==> At(a, d) in s.ends.waiting.Keys;
  }

  lemma {:induction false} FlushCounts(s: Sys, w: Worker, device: Device, target: Option<Worker>, code: string, a: Worker, d: Device)
    requires Sound(s.ends)
    ensures var s' := Flush(s, w, device, target, code);
      && Outstanding(s', a, d) == Outstanding(s, a, d)
      && (At(a, d) in s'.ends.waiting <==> At(a, d) in s.ends.waiting && At(a, d) != At(w, device))
  {
  }

  lemma {:induction false} PopAnswer(s: Sys, w: Worker, a: Worker, d: Device)
    requires Queue(s.inbox, w) != []
    ensures var s1 := s.(inbox := s.inbox[w := s.inbox[w][1..]]);
      Outstanding(s, a, d) == Outstanding(s1, a, d) + if w == a && Answers(d)(s.inbox[w][0]) then 1 else 0
  {
    CountRemove(s.inbox[w], 0, Answers(d));
    assert s.inbox[w][..0] + s.inbox[w][1..] == s.inbox[w][1..];
  }

  lemma {:induction false} HandleCounts(s: Sys, w: Worker, m: ToWorker, a: Worker, d: Device)
    requires Sound(s.ends)
    ensures var s' := WorkerHandles(s, w, m);
      && Outstanding(s', a, d) == Outstanding(s, a, d)
      && (At(a, d) in s'.ends.waiting <==>
          At(a, d) in s.ends.waiting && !((m.ChannelGrant? || m.ChannelDeny?) && At(a, d) == At(w, m.device)))
  {
    match m
    case ChannelGrant(dev, t, p) => FlushCounts(s.(ends := Attach(s.ends, w, dev, t, p)), w, dev, Some(t), "", a, d);
    case ChannelDeny(dev, code) => FlushCounts(s, w, dev, None, code, a, d);
    case ChannelAllow(_, _, id, _) => CountPush(Queue(s.outbox, w), AllowReply(id), Requests(d));
    case _ =>
  }

  lemma {:induction false} WorkerCounts(s: Sys, w: Worker, a: Worker, d: Device)
    requires Sound(s.ends) && Exact(s, a, d)
    ensures Exact(WorkerReceives(s, w), a, d)
  {
    if Queue(s.inbox, w) != [] {
      PopAnswer(s, w, a, d);
      HandleCounts(s.(inbox := s.inbox[w := s.inbox[w][1..]]), w, s.inbox[w][0], a, d);
    }
  }

  // ----- every step -----

  lemma {:induction false} GrantNumbered(s: Sys, device: Device, key: Key, caller: Worker, callee: Worker)
    requires Numbered(s.main)
    ensures Numbered(GrantChannel(s, device, key, caller, callee).main)
  {
  }

  lemma {:induction false} AuthNumbered(s: Sys, i: nat, ok: bool, code: string)
    requires Numbered(s.main) && i < |s.main.checks|
    ensures Numbered(Authenticated(s, i, ok, code).main)
  {
    var c := s.main.checks[i];
    var s1 := s.(main := s.main.(checks := s.main.checks[..i] + s.main.checks[i + 1..]));
    if c.callee.Some? { GrantNumbered(s1, c.device, c.key, c.caller, c.callee.value); }
  }

  lemma {:induction false} MainNumbered(s: Sys, w: Worker, limited: bool, missing: string)
    requires Numbered(s.main)
    ensures Numbered(MainReceives(s, w, limited, missing).main)
  {
  }

  predicate Grants(step: Step) { step.MainStep? || step.AuthStep? || step.EndStep? }

  lemma {:induction false} AwaitingSame(s: Sys, step: Step)
    requires Sound(s.ends) && !Grants(step)
    ensures var m := Next(s, step).main;
      m.awaiting == s.main.awaiting && m.nextAllow == s.main.nextAllow && m.ended == s.main.ended
  {
    if step.WorkerStep? { HandlesMain(s, step.w); }
  }

  lemma {:induction false} HandlesMain(s: Sys, w: Worker)
    requires Sound(s.ends)
    ensures WorkerReceives(s, w).main == s.main
  {
  }

  lemma {:induction false} NextNumbered(s: Sys, step: Step)
    requires Sound(s.ends) && Numbered(s.main)
    ensures Numbered(Next(s, step).main)
  {
    match step
    case MainStep(w, limited, missing) => MainNumbered(s, w, limited, missing);
    case AuthStep(i, ok, code) => if i < |s.main.checks| { AuthNumbered(s, i, ok, code); }
    case EndStep(w, code) => assert Numbered(WorkerEnds(s, w, code).main);
    case _ => AwaitingSame(s, step);
  }

  /** Steps that leave every place a request can be alone. */
  lemma {:induction false} ElsewhereExact(s: Sys, step: Step, a: Worker, d: Device)
    requires Sound(s.ends) && Exact(s, a, d)
    requires step.RecheckStep? || step.PortCloseStep? || step.DispatchStep? || step.ForgeStep? || step.DropStep? || step.OnlineStep?
    ensures Exact(Next(s, step), a, d)
  {
    ElsewhereSame(s, Next(s, step), step);
  }

  lemma {:induction false} ElsewhereSame(s: Sys, s': Sys, step: Step)
    requires Sound(s.ends) && s' == Next(s, step)
    requires step.RecheckStep? || step.PortCloseStep? || step.DispatchStep? || step.ForgeStep? || step.DropStep? || step.OnlineStep?
    ensures s'.outbox == s.outbox && s'.inbox == s.inbox && s'.ends.waiting == s.ends.waiting
    ensures s'.main.checks == s.main.checks && s'.main.awaiting == s.main.awaiting && s'.main.nextAllow == s.main.nextAllow
  {
  }

  lemma {:induction false} RecheckedExact(s: Sys, r: Recheck, ok: bool, a: Worker, d: Device)
    requires Exact(s, a, d)
    ensures Exact(Rechecked(s, r, ok), a, d)
  {
    CloseRevokedCounts(s.(main := s.main.(rechecks := s.main.rechecks - {r})), r.pair, r.port, a, d);
  }

  lemma {:induction false} PurgeExact(s: Sys, w: Worker, a: Worker, d: Device)
    requires Exact(s, a, d)
    ensures Exact(Purge(s, w), a, d)
  {
    var left := map x | x in s.main.deviceMap && s.main.deviceMap[x] != w :: s.main.deviceMap[x];
    InvalidateWorkerCounts(s.(main := s.main.(deviceMap := left)), w, a, d);
  }

  lemma {:induction false} NextExact(s: Sys, step: Step, a: Worker, d: Device)
    requires Sound(s.ends) && Numbered(s.main) && Exact(s, a, d)
    ensures Exact(Next(s, step), a, d)
  {
    match step
    case CallStep(w, dev, k) => CallCounts(s, w, dev, k, a, d);
    case MainStep(w, limited, missing) => MainCounts(s, w, limited, missing, a, d);
    case AuthStep(i, ok, code) => if i < |s.main.checks| { AuthCounts(s, i, ok, code, a, d); }
    case WorkerStep(w) => WorkerCounts(s, w, a, d);
    case RecheckedStep(r, ok) => RecheckedExact(s, r, ok, a, d);
    case SelfInvalidateStep(w) => CountPush(Queue(s.outbox, w), SelfInvalidate, Requests(d));
    case PurgeStep(w) => PurgeExact(s, w, a, d);
    case EndStep(w, code) => WorkerEndsCounts(s, w, code, a, d);
    case _ => ElsewhereExact(s, step, a, d);
  }

  lemma {:induction false} EveryRunExact(steps: seq<Step>, a: Worker, d: Device)
    ensures Numbered(Exec(steps).main) && Exact(Exec(steps), a, d)
    decreases |steps|
  {
    if steps != [] {
      var before := Exec(steps[..|steps| - 1]);
      EveryRunExact(steps[..|steps| - 1], a, d);
      NextNumbered(before, steps[|steps| - 1]);
      NextExact(before, steps[|steps| - 1], a, d);
    }
  }

  // ----- nothing gets stuck -----

  ghost predicate AllowIn(q: seq<ToWorker>, id: nat) { exists m :: m in q && m.ChannelAllow? && m.id == id }

  /** An unanswered ChannelAllow is on its way to a running callee, or its answer is on the way back. */
  ghost predicate Live(m: Main, inbox: Inbox, outbox: map<Worker, seq<ToMain>>, id: nat) {
    id in m.awaiting ==>
      && m.awaiting[id].callee !in m.ended
      && (AllowIn(Queue(inbox, m.awaiting[id].callee), id) || AllowReply(id) in Queue(outbox, m.awaiting[id].callee))
  }

  ghost predicate Grows<T(!new)>(q: map<Worker, seq<T>>, q': map<Worker, seq<T>>) {
    forall w, m :: m in Queue(q, w) ==> m in Queue(q', w)
  }

  lemma {:induction false} LiveGrows(m: Main, m': Main, inbox: Inbox, inbox': Inbox, outbox: map<Worker, seq<ToMain>>,
                                     outbox': map<Worker, seq<ToMain>>, id: nat)
    requires Live(m, inbox, outbox, id) && Grows(inbox, inbox')
    requires id in m'.awaiting ==>
      && id in m.awaiting && m'.awaiting[id] == m.awaiting[id]
      && (m.awaiting[id].callee in m'.ended ==> m.awaiting[id].callee in m.ended)
      && (AllowReply(id) in Queue(outbox, m.awaiting[id].callee) ==> AllowReply(id) in Queue(outbox', m.awaiting[id].callee))
    ensures Live(m', inbox', outbox', id)
  {
  }

  lemma {:induction false} PushGrows<T(!new)>(q: map<Worker, seq<T>>, w: Worker, x: T)
    ensures Grows(q, Push(q, w, x)) && x in Queue(Push(q, w, x), w)
  {
  }

  lemma {:induction false} GrowsTrans<T(!new)>(p: map<Worker, seq<T>>, q: map<Worker, seq<T>>, r: map<Worker, seq<T>>)
    requires Grows(p, q) && Grows(q, r)
    ensures Grows(p, r)
  {
  }

  lemma {:induction false} DenyLive(s: Sys, s': Sys, w: Worker, device: Device, code: string, id: nat)
    requires Live(s.main, s.inbox, s.outbox, id) && s' == Deny(s, w, device, code)
    ensures Live(s'.main, s'.inbox, s'.outbox, id)
  {
  }

  lemma {:induction false} RequestLive(s: Sys, s': Sys, w: Worker, device: Device, key: Key, missing: string, id: nat)
    requires Live(s.main, s.inbox, s.outbox, id) && s' == HandleRequest(s, w, device, key, missing)
    ensures Live(s'.main, s'.inbox, s'.outbox, id)
  {
    if s'.inbox != s.inbox {
      DenyLive(s, s', w, device, if device in s.main.deviceMap then "PEER_SELF_TARGET" else missing, id);
    }
  }

  lemma {:induction false} GrantLive(s: Sys, s': Sys, device: Device, key: Key, caller: Worker, callee: Worker, id: nat)
    requires Live(s.main, s.inbox, s.outbox, id) && s' == GrantChannel(s, device, key, caller, callee)
    ensures Live(s'.main, s'.inbox, s'.outbox, id)
  {
    if Pair(caller, callee) !in s.main.registry {
      var p := s.main.nextPort;
      PushGrows(s.inbox, callee, ChannelOpen(caller, key, device, p));
      PushGrows(Push(s.inbox, callee, ChannelOpen(caller, key, device, p)), caller, ChannelGrant(device, callee, Some(p)));
      GrowsTrans(s.inbox, Push(s.inbox, callee, ChannelOpen(caller, key, device, p)), s'.inbox);
      LiveGrows(s.main, s'.main, s.inbox, s'.inbox, s.outbox, s'.outbox, id);
    } else if callee in s.main.ended {
      PushGrows(s.inbox, caller, ChannelDeny(device, s.main.ended[callee]));
      LiveGrows(s.main, s'.main, s.inbox, s'.inbox, s.outbox, s'.outbox, id);
    } else {
      AllowSentLive(s, s', Await(callee, caller, device), s.main.registry[Pair(caller, callee)].port, id);
    }
  }

  lemma {:induction false} AllowSentLive(s: Sys, s': Sys, x: Await, p: nat, id: nat)
    requires Live(s.main, s.inbox, s.outbox, id) && x.callee !in s.main.ended
    requires s'.main.ended == s.main.ended && s'.outbox == s.outbox
    requires s'.main.awaiting == s.main.awaiting[s.main.nextAllow := x]
    requires s'.inbox == Push(s.inbox, x.callee, ChannelAllow(x.caller, x.device, s.main.nextAllow, p))
    ensures Live(s'.main, s'.inbox, s'.outbox, id)
  {
  }

  lemma {:induction false} AuthLive(s: Sys, s': Sys, i: nat, ok: bool, code: string, id: nat)
    requires i < |s.main.checks| && Live(s.main, s.inbox, s.outbox, id) && s' == Authenticated(s, i, ok, code)
    ensures Live(s'.main, s'.inbox, s'.outbox, id)
  {
    var c := s.main.checks[i];
    var s1 := s.(main := s.main.(checks := s.main.checks[..i] + s.main.checks[i + 1..]));
    if !ok {
      DenyLive(s1, s', c.caller, c.device, code, id);
    } else if c.callee.None? {
      DenyLive(s1, s', c.caller, c.device, c.code, id);
    } else {
      GrantLive(s1, s', c.device, c.key, c.caller, c.callee.value, id);
    }
  }

  lemma {:induction false} InvalidateWorkerLive(s: Sys, s': Sys, w: Worker, id: nat)
    requires Live(s.main, s.inbox, s.outbox, id) && s' == InvalidateWorker(s, w)
    ensures Live(s'.main, s'.inbox, s'.outbox, id)
  {
  }

  lemma {:induction false} WorkerEndsLive(s: Sys, s': Sys, w: Worker, code: string, id: nat)
    requires Live(s.main, s.inbox, s.outbox, id) && s' == WorkerEnds(s, w, code)
    ensures Live(s'.main, s'.inbox, s'.outbox, id)
  {
  }

  lemma {:induction false} PoppedReply(outbox: map<Worker, seq<ToMain>>, w: Worker, id: nat, v: Worker)
    requires Queue(outbox, w) != [] && outbox[w][0] != AllowReply(id)
    ensures AllowReply(id) in Queue(outbox, v) ==> AllowReply(id) in Queue(outbox[w := outbox[w][1..]], v)
  {
  }

  lemma {:induction false} MainLive(s: Sys, s': Sys, w: Worker, limited: bool, missing: string, id: nat)
    requires Live(s.main, s.inbox, s.outbox, id) && s' == MainReceives(s, w, limited, missing)
    ensures Live(s'.main, s'.inbox, s'.outbox, id)
  {
    if Queue(s.outbox, w) != [] {
      var m := s.outbox[w][0];
      var s1 := s.(outbox := s.outbox[w := s.outbox[w][1..]]);
      if m == AllowReply(id) {
        assert id !in s'.main.awaiting;
        return;
      }
      if id in s.main.awaiting { PoppedReply(s.outbox, w, id, s.main.awaiting[id].callee); }
      LiveGrows(s.main, s1.main, s.inbox, s1.inbox, s.outbox, s1.outbox, id);
      match m
      case ChannelRequest(dev, k) =>
        if limited { DenyLive(s1, s', w, dev, "RATE_LIMITED", id); } else { RequestLive(s1, s', w, dev, k, missing, id); }
      case AllowReply(n) => AllowedLive(s1, s', n, id);
      case SelfInvalidate => if !limited { InvalidateWorkerLive(s1, s', w, id); }
    }
  }

  lemma {:induction false} AllowedLive(s: Sys, s': Sys, n: nat, id: nat)
    requires Live(s.main, s.inbox, s.outbox, id) && s' == Allowed(s, n)
    ensures Live(s'.main, s'.inbox, s'.outbox, id)
  {
  }

  lemma {:induction false} WorkerChanges(s: Sys, w: Worker)
    requires Sound(s.ends) && Queue(s.inbox, w) != []
    ensures var s', m := WorkerReceives(s, w), s.inbox[w][0];
      && s'.main == s.main && s'.inbox == s.inbox[w := s.inbox[w][1..]]
      && s'.outbox == if m.ChannelAllow? then Push(s.outbox, w, AllowReply(m.id)) else s.outbox
  {
  }

  lemma {:induction false} WorkerLive(s: Sys, w: Worker, id: nat)
    requires Sound(s.ends) && Live(s.main, s.inbox, s.outbox, id)
    ensures var s' := WorkerReceives(s, w); Live(s'.main, s'.inbox, s'.outbox, id)
  {
    if Queue(s.inbox, w) != [] && id in s.main.awaiting {
      var s', m, b := WorkerReceives(s, w), s.inbox[w][0], s.main.awaiting[id].callee;
      WorkerChanges(s, w);
      if m.ChannelAllow? { PushGrows(s.outbox, w, AllowReply(m.id)); }
      if AllowIn(Queue(s.inbox, b), id) && b == w && !(m.ChannelAllow? && m.id == id) {
        var x :| x in Queue(s.inbox, b) && x.ChannelAllow? && x.id == id;
        assert s.inbox[w] == [m] + s.inbox[w][1..];
        assert x in Queue(s'.inbox, b);
      }
    }
  }

  lemma {:induction false} OtherLive(s: Sys, s': Sys, step: Step, id: nat)
    requires Sound(s.ends) && Live(s.main, s.inbox, s.outbox, id) && s' == Next(s, step)
    requires step.CallStep? || step.RecheckedStep? || step.SelfInvalidateStep? || step.PurgeStep?
    ensures Live(s'.main, s'.inbox, s'.outbox, id)
  {
    match step
    case CallStep(w, d, k) =>
      CallChanges(s, w, d, k);
      PushGrows(s.outbox, w, ChannelRequest(d, k));
      LiveGrows(s.main, s'.main, s.inbox, s'.inbox, s.outbox, s'.outbox, id);
    case RecheckedStep(r, ok) => RecheckedLive(s, s', r, ok, id);
    case SelfInvalidateStep(w) =>
      PushGrows(s.outbox, w, SelfInvalidate);
      LiveGrows(s.main, s'.main, s.inbox, s'.inbox, s.outbox, s'.outbox, id);
    case PurgeStep(w) =>
      var left := map x | x in s.main.deviceMap && s.main.deviceMap[x] != w :: s.main.deviceMap[x];
      InvalidateWorkerLive(s.(main := s.main.(deviceMap := left)), s', w, id);
  }

  lemma {:induction false} RecheckedLive(s: Sys, s': Sys, r: Recheck, ok: bool, id: nat)
    requires Live(s.main, s.inbox, s.outbox, id) && s' == Rechecked(s, r, ok)
    ensures Live(s'.main, s'.inbox, s'.outbox, id)
  {
  }

  lemma {:induction false} NextLive(s: Sys, step: Step, id: nat)
    requires Sound(s.ends) && Live(s.main, s.inbox, s.outbox, id)
    ensures var s' := Next(s, step); Live(s'.main, s'.inbox, s'.outbox, id)
  {
    var s' := Next(s, step);
    match step
    case MainStep(w, limited, missing) => MainLive(s, s', w, limited, missing, id);
    case AuthStep(i, ok, code) => if i < |s.main.checks| { AuthLive(s, s', i, ok, code, id); }
    case WorkerStep(w) => WorkerLive(s, w, id);
    case EndStep(w, code) => WorkerEndsLive(s, s', w, code, id);
    case CallStep(_, _, _) => OtherLive(s, s', step, id);
    case RecheckedStep(_, _) => OtherLive(s, s', step, id);
    case SelfInvalidateStep(_) => OtherLive(s, s', step, id);
    case PurgeStep(_) => OtherLive(s, s', step, id);
    case _ =>
      AwaitingSame(s, step);
      assert s'.inbox == s.inbox && s'.outbox == s.outbox;
  }

  lemma {:induction false} EveryRunLive(steps: seq<Step>, id: nat)
    ensures var s := Exec(steps); Live(s.main, s.inbox, s.outbox, id)
    decreases |steps|
  {
    if steps != [] {
      EveryRunLive(steps[..|steps| - 1], id);
      NextLive(Exec(steps[..|steps| - 1]), steps[|steps| - 1], id);
    }
  }

  lemma NoneAwaited(aw: map<nat, Await>, n: nat, a: Worker, d: Device)
    requires aw == map[]
    ensures Awaited(aw, n, a, d) == 0
  {
  }

  /** With nothing in flight, no request is outstanding. */
  lemma {:induction false} NothingAwaited(steps: seq<Step>, s: Sys, a: Worker, d: Device)
    requires s == Exec(steps) && s.main.checks == [] && a !in s.main.ended
    requires forall w :: w !in s.main.ended ==> Queue(s.inbox, w) == [] && Queue(s.outbox, w) == []
    ensures Outstanding(s, a, d) == 0
  {
    forall id ensures id !in s.main.awaiting { EveryRunLive(steps, id); }
    assert s.main.awaiting == map[];
    NoneAwaited(s.main.awaiting, s.main.nextAllow, a, d);
  }

  // ----- no worker gets a channel to itself -----

  ghost predicate NoSelf(m: Main) {
    && (forall i :: 0 <= i < |m.checks| && m.checks[i].callee.Some? ==> m.checks[i].callee.value != m.checks[i].caller)
    && (forall p :: p in m.registry ==> p.one != p.other)
  }

  /** No authorization is opened and no entry is made. */
  ghost predicate NothingNew(m: Main, m': Main) {
    m'.checks == m.checks && forall p :: p in m'.registry ==> p in m.registry
  }

  lemma {:induction false} MainNoSelf(s: Sys, s': Sys, w: Worker, limited: bool, missing: string)
    requires NoSelf(s.main) && s' == MainReceives(s, w, limited, missing)
    ensures NoSelf(s'.main)
  {
    if Queue(s.outbox, w) != [] {
      match s.outbox[w][0]
      case ChannelRequest(d, k) => assert s'.main.registry == s.main.registry;
      case AllowReply(id) => assert NothingNew(s.main, s'.main);
      case SelfInvalidate => assert NothingNew(s.main, s'.main);
    }
  }

  lemma {:induction false} AuthNoSelf(s: Sys, s': Sys, i: nat, ok: bool, code: string)
    requires NoSelf(s.main) && i < |s.main.checks| && s' == Authenticated(s, i, ok, code)
    ensures NoSelf(s'.main)
  {
    var c := s.main.checks[i];
    assert s'.main.checks == s.main.checks[..i] + s.main.checks[i + 1..];
    assert forall p :: p in s'.main.registry ==> p in s.main.registry || (c.callee.Some? && p == Pair(c.caller, c.callee.value));
  }

  lemma {:induction false} OtherNoSelf(s: Sys, s': Sys, step: Step)
    requires Sound(s.ends) && s' == Next(s, step) && !step.MainStep? && !step.AuthStep?
    ensures NothingNew(s.main, s'.main)
  {
    match step
    case CallStep(w, d, k) => CallChanges(s, w, d, k);
    case WorkerStep(w) => if Queue(s.inbox, w) != [] { WorkerChanges(s, w); }
    case _ =>
  }

  lemma {:induction false} EveryRunNoSelf(steps: seq<Step>)
    ensures NoSelf(Exec(steps).main)
    decreases |steps|
  {
    if steps != [] {
      var s, s', step := Exec(steps[..|steps| - 1]), Exec(steps), steps[|steps| - 1];
      EveryRunNoSelf(steps[..|steps| - 1]);
      match step
      case MainStep(w, limited, missing) => MainNoSelf(s, s', w, limited, missing);
      case AuthStep(i, ok, code) => if i < |s.main.checks| { AuthNoSelf(s, s', i, ok, code); }
      case _ => OtherNoSelf(s, s', step);
    }
  }
}
