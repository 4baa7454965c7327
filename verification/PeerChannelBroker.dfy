/**
 lib/peer-channel-broker.js in its own form: one object whose handlers update the channel
 registry in place and send messages to workers.  Every handler is proved to be the transition
 of PeerBrokering of the same name.  `checks`, `awaiting` and `rechecks` are the callbacks the
 broker is waiting for, each called once; `userAuth` answers after the handler that asked has
 returned.
 */
module PeerChannelBrokers {
  import opened Wrappers
  import opened PeerBrokering

  /** The rechecks a pass has asked for once it has gone through the pairs in `done`. */
  ghost function Asked(registry: map<Pair, Entry>, done: set<Pair>): set<Recheck> {
    set p, g | p in done && p in registry && g in registry[p].grants :: Recheck(p, registry[p].port, g)
  }

  /** A message as the worker sees it: without the port kept for the record. */
  function Plain(m: ToWorker): ToWorker {
    match m
    case Invalidate(peer, _) => Invalidate(peer, None)
    case ChannelAllow(caller, device, id, _) => ChannelAllow(caller, device, id, 0)
    case _ => m
  }

  function Plains(q: seq<ToWorker>): seq<ToWorker> { seq(|q|, i requires 0 <= i < |q| => Plain(q[i])) }

  /** What a worker `o` has been told once the pairs in `done` are gone through on behalf of `w`. */
  function Told(done: set<Pair>, w: Worker, o: Worker): seq<ToWorker> {
    if o == w then []
    else
      (if Pair(w, o) in done then [Invalidate(w, None)] else []) +
      (if Pair(o, w) in done then [Invalidate(w, None)] else [])
  }

  class PeerChannelBroker {
    var deviceMap: map<Device, Worker>      // the device manager's, read only here
    var channelRegistry: map<Pair, Entry>
    var recheckInFlight: nat
    var checks: seq<Check>
    var awaiting: map<nat, Await>
    var rechecks: set<Recheck>
    var nextPort: nat
    var nextAllow: nat
    var ended: map<Worker, string>
    var inbox: Inbox                        // messages sent, by worker
    ghost var log: seq<Event>

    ghost predicate Valid()
      reads this
    {
      recheckInFlight == |rechecks|
    }

    ghost function MainState(): Main
      reads this
    {
      Main(deviceMap, channelRegistry, checks, awaiting, rechecks, nextPort, nextAllow, ended)
    }

    /** The whole system, with `rest` for what the main thread does not hold. */
    ghost function State(rest: Sys): Sys
      reads this
    {
      rest.(main := MainState(), inbox := inbox, log := log)
    }

    method SendToWorker(w: Worker, m: ToWorker)
      modifies `inbox
      ensures inbox == Push(old(inbox), w, m)
    {
      inbox := Push(inbox, w, m);
    }

    method HandleRequest(caller: Worker, device: Device, key: Key, missing: string, ghost rest: Sys)
      modifies `inbox, `checks
      ensures State(rest) == PeerBrokering.HandleRequest(old(State(rest)), caller, device, key, missing)
    {
      if device !in deviceMap {
        if missing != "DEVICE_NOT_FOUND" {
          checks := checks + [Check(caller, device, key, None, missing)];
          return;
        }
        SendToWorker(caller, ChannelDeny(device, missing));
        return;
      }
      var callee := deviceMap[device];
      if callee == caller {
        SendToWorker(caller, ChannelDeny(device, "PEER_SELF_TARGET"));
        return;
      }
      checks := checks + [Check(caller, device, key, Some(callee), "")];
    }

    /** The callback of `userAuth` for the `i`-th request still being checked. */
    method OnUserAuth(i: nat, ok: bool, code: string, ghost rest: Sys)
      requires i < |checks|
      modifies `checks, `channelRegistry, `awaiting, `nextAllow, `nextPort, `inbox, `log
      ensures State(rest) == Authenticated(old(State(rest)), i, ok, code)
    {
      var c := checks[i];
      checks := checks[..i] + checks[i + 1..];
      if !ok {
        SendToWorker(c.caller, ChannelDeny(c.device, code));
      } else if c.callee.None? {
        SendToWorker(c.caller, ChannelDeny(c.device, c.code));
      } else {
        GrantTo(c.device, c.key, c.caller, c.callee.value, rest);
      }
    }

    /** `grant`. */
    method GrantTo(device: Device, key: Key, caller: Worker, callee: Worker, ghost rest: Sys)
      modifies `channelRegistry, `awaiting, `nextAllow, `nextPort, `inbox, `log
      ensures State(rest) == GrantChannel(old(State(rest)), device, key, caller, callee)
    {
      var pairKey := Pair(caller, callee);
      if pairKey in channelRegistry {
        AddGrant(pairKey, Grant(key, device));
        SendAllow(device, caller, callee);
        return;
      }
      var port := NewChannel(pairKey, Grant(key, device));
      SendToWorker(callee, ChannelOpen(caller, key, device, port));
      SendToWorker(caller, ChannelGrant(device, callee, Some(port)));
    }

    /** A new port pair and its registry entry. */
    method NewChannel(pairKey: Pair, grant: Grant) returns (port: nat)
      modifies `channelRegistry, `nextPort, `log
      ensures port == old(nextPort) && nextPort == port + 1
      ensures channelRegistry == old(channelRegistry)[pairKey := Entry(port, {grant})]
      ensures log == old(log) + [Authorized(port, pairKey.one, pairKey.other, grant)]
    {
      port := nextPort;
      nextPort := nextPort + 1;
      channelRegistry := channelRegistry[pairKey := Entry(port, {})];
      AddGrant(pairKey, grant);
      assert {} + {grant} == {grant};
    }

    method AddGrant(pairKey: Pair, grant: Grant)
      requires pairKey in channelRegistry
      modifies `channelRegistry, `log
      ensures var e := old(channelRegistry)[pairKey];
        channelRegistry == old(channelRegistry)[pairKey := e.(grants := e.grants + {grant})]
      ensures log == old(log) + [Authorized(old(channelRegistry)[pairKey].port, pairKey.one, pairKey.other, grant)]
    {
      var e := channelRegistry[pairKey];
      log := log + [Authorized(e.port, pairKey.one, pairKey.other, grant)];
      channelRegistry := channelRegistry[pairKey := e.(grants := e.grants + {grant})];
    }

    /** A worker that has ended answers at once with its error. */
    method SendAllow(device: Device, caller: Worker, callee: Worker)
      requires Pair(caller, callee) in channelRegistry
      modifies `awaiting, `nextAllow, `inbox
      ensures callee in ended ==>
        awaiting == old(awaiting) && nextAllow == old(nextAllow)
        && inbox == Push(old(inbox), caller, ChannelDeny(device, ended[callee]))
      ensures callee !in ended ==>
        awaiting == old(awaiting)[old(nextAllow) := Await(callee, caller, device)] && nextAllow == old(nextAllow) + 1
        && inbox == Push(old(inbox), callee,
             ChannelAllow(caller, device, old(nextAllow), channelRegistry[Pair(caller, callee)].port))
    {
      if callee in ended {
        SendToWorker(caller, ChannelDeny(device, ended[callee]));
        return;
      }
      awaiting := awaiting[nextAllow := Await(callee, caller, device)];
      SendToWorker(callee, ChannelAllow(caller, device, nextAllow, channelRegistry[Pair(caller, callee)].port));
      nextAllow := nextAllow + 1;
    }

    method OnAllowReply(id: nat, ghost rest: Sys)
      modifies `awaiting, `inbox
      ensures State(rest) == Allowed(old(State(rest)), id)
    {
      if id !in awaiting { return; }
      var a := awaiting[id];
      awaiting := awaiting - {id};
      SendToWorker(a.caller, ChannelGrant(a.device, a.callee, None));
    }

    method RecheckGrants(ghost rest: Sys)
      requires Valid()
      modifies `recheckInFlight, `rechecks
      ensures Valid()
      ensures State(rest) == PeerBrokering.RecheckGrants(old(State(rest)))
    {
      if recheckInFlight > 0 { return; }
      var pairs := channelRegistry.Keys;
      while pairs != {}
        invariant pairs <= channelRegistry.Keys
        invariant rechecks == Asked(channelRegistry, channelRegistry.Keys - pairs)
        invariant Valid()
      {
        var pairKey :| pairKey in pairs;
        pairs := pairs - {pairKey};
        RecheckPair(pairKey);
        assert rechecks == Asked(channelRegistry, channelRegistry.Keys - pairs);
      }
      assert rechecks == AllGrants(channelRegistry);
    }

    method RecheckPair(pairKey: Pair)
      requires Valid() && pairKey in channelRegistry
      requires forall r :: r in rechecks ==> r.pair != pairKey
      modifies `recheckInFlight, `rechecks
      ensures Valid()
      ensures rechecks == old(rechecks) + Asked(channelRegistry, {pairKey})
    {
      var e := channelRegistry[pairKey];
      var grants := e.grants;
      while grants != {}
        invariant grants <= e.grants
        invariant forall r :: r in rechecks <==>
          r in old(rechecks) || (r.pair == pairKey && r.port == e.port && r.grant in e.grants && r.grant !in grants)
        invariant Valid()
      {
        var grant :| grant in grants;
        Ask(Recheck(pairKey, e.port, grant));
        grants := grants - {grant};
      }
      assert rechecks == old(rechecks) + Asked(channelRegistry, {pairKey});
    }

    /** One `userAuth` call of a recheck pass. */
    method Ask(r: Recheck)
      requires Valid() && r !in rechecks
      modifies `recheckInFlight, `rechecks
      ensures Valid()
      ensures rechecks == old(rechecks) + {r}
    {
      recheckInFlight := recheckInFlight + 1;
      rechecks := rechecks + {r};
    }

    /** The callback of `userAuth` for one grant being rechecked. */
    method OnRechecked(r: Recheck, ok: bool, ghost rest: Sys)
      requires Valid() && r in rechecks
      modifies `recheckInFlight, `rechecks, `channelRegistry, `inbox
      ensures Valid()
      ensures State(rest) == Rechecked(old(State(rest)), r, ok)
    {
      recheckInFlight := recheckInFlight - 1;
      rechecks := rechecks - {r};
      if !ok { CloseRevoked(r.pair, r.port, rest); }
    }

    method CloseRevoked(pairKey: Pair, port: nat, ghost rest: Sys)
      modifies `channelRegistry, `inbox
      ensures State(rest) == PeerBrokering.CloseRevoked(old(State(rest)), pairKey, port)
    {
      if pairKey !in channelRegistry || channelRegistry[pairKey].port != port { return; }
      channelRegistry := channelRegistry - {pairKey};
      SendToWorker(pairKey.one, Invalidate(pairKey.other, None));
      SendToWorker(pairKey.other, Invalidate(pairKey.one, Some(port)));
    }

    /** The order in which the registry is gone through does not matter to any worker. */
    method InvalidateWorker(w: Worker, ghost rest: Sys)
      modifies `channelRegistry, `inbox
      ensures var s' := PeerBrokering.InvalidateWorker(old(State(rest)), w);
        && MainState() == s'.main
        && forall o :: Plains(Queue(inbox, o)) == Plains(Queue(s'.inbox, o))
    {
      var toRemove := TellParties(w);
      channelRegistry := channelRegistry - toRemove;
      forall o ensures Plains(Queue(inbox, o)) == Plains(Queue(PeerBrokering.InvalidateWorker(old(State(rest)), w).inbox, o)) {
        ToldAll(old(channelRegistry), toRemove, w, o);
        PlainsConcat(Queue(old(inbox), o), Invalidations(old(channelRegistry), w, o));
        Delivered(old(State(rest)), w, o);
      }
    }

    /** The other party of each of the worker's entries is told. */
    method TellParties(w: Worker) returns (toRemove: set<Pair>)
      modifies `inbox
      ensures toRemove == set p | p in channelRegistry.Keys && Involves(p, w)
      ensures forall o :: Plains(Queue(inbox, o)) == Plains(Queue(old(inbox), o)) + Told(toRemove, w, o)
    {
      var pairs := channelRegistry.Keys;
      toRemove := {};
      while pairs != {}
        invariant pairs <= channelRegistry.Keys
        invariant toRemove == set p | p in channelRegistry.Keys - pairs && Involves(p, w)
        invariant forall o :: Plains(Queue(inbox, o)) == Plains(Queue(old(inbox), o)) + Told(toRemove, w, o)
      {
        var pairKey :| pairKey in pairs;
        pairs := pairs - {pairKey};
        if Involves(pairKey, w) {
          forall o { ToldMore(toRemove, pairKey, w, o); }
          TellOther(pairKey, w);
          toRemove := toRemove + {pairKey};
        }
      }
    }

    /** The party of `pairKey` other than `w` is told to drop its end. */
    method TellOther(pairKey: Pair, w: Worker)
      requires pairKey in channelRegistry && Involves(pairKey, w)
      modifies `inbox
      ensures forall o :: Plains(Queue(inbox, o)) == Plains(Queue(old(inbox), o)) + ToldOf(pairKey, w, o)
    {
      var other := if pairKey.one == w then pairKey.other else pairKey.one;
      if other != w {
        var closes := if pairKey.one == w then Some(channelRegistry[pairKey].port) else None;
        SendToWorker(other, Invalidate(w, closes));
      }
    }
  }

  /** What going through one pair tells `o`. */
  function ToldOf(pairKey: Pair, w: Worker, o: Worker): seq<ToWorker> {
    if o != w && (pairKey == Pair(w, o) || pairKey == Pair(o, w)) then [Invalidate(w, None)] else []
  }

  lemma ToldMore(done: set<Pair>, pairKey: Pair, w: Worker, o: Worker)
    requires pairKey !in done
    ensures Told(done + {pairKey}, w, o) == Told(done, w, o) + ToldOf(pairKey, w, o)
  {
  }

  lemma PlainsConcat(q: seq<ToWorker>, r: seq<ToWorker>)
    ensures Plains(q + r) == Plains(q) + Plains(r)
  {
  }

  lemma ToldAll(registry: map<Pair, Entry>, removed: set<Pair>, w: Worker, o: Worker)
    requires removed == set p | p in registry && Involves(p, w)
    ensures Plains(Invalidations(registry, w, o)) == Told(removed, w, o)
  {
  }

  lemma Delivered(s: Sys, w: Worker, o: Worker)
    ensures Queue(PeerBrokering.InvalidateWorker(s, w).inbox, o) == Queue(s.inbox, o) + Invalidations(s.main.registry, w, o)
  {
  }
}
