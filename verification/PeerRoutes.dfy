/**
 The direct-channel half of the device managers (lib/device-manager.js:244-422) in its own
 form: handlers that update `peerChannels`, `peerDeviceWorkerMap` and `pendingPeerInvokes` in
 place.  The fields of all workers' managers are kept in one object, keyed by worker, and each
 handler names the worker it runs in.  Every handler is proved to be the transition of
 PeerBrokering of the same name, so the run theorems are about these methods.
 */
module PeerRoutes {
  import opened Wrappers
  import opened PeerBrokering

  class DeviceManagers {
    var peerChannels: map<Pair, nat>
    var chans: seq<Chan>
    var peerDeviceWorkerMap: map<At, Worker>
    var pendingPeerInvokes: map<At, seq<nat>>
    var calls: nat
    // Effects: messages to the main thread, invokes sent, what became of each call.
    var outbox: map<Worker, seq<ToMain>>
    var wire: map<nat, seq<Device>>
    var log: seq<Event>
    ghost var lastOpen: map<Pair, nat>

    ghost function Channels(): Ends
      reads this
    {
      Ends(peerChannels, lastOpen, chans, peerDeviceWorkerMap, pendingPeerInvokes, calls)
    }

    ghost predicate Valid()
      reads this
    {
      Sound(Channels())
    }

    /** The whole system, with `rest` for everything the managers do not hold. */
    ghost function State(rest: Sys): Sys
      reads this
    {
      rest.(ends := Channels(), outbox := outbox, wire := wire, log := log)
    }

    /** `channel.invoke` for one call: a closed channel answers PEER_GONE at once. */
    method Send(c: Chan, device: Device, id: nat)
      modifies `wire, `log
      ensures wire == old(wire)[c.port := Queue(old(wire), c.port) + if c.closed || c.allowed.Some? then [] else [device]]
      ensures log == old(log) + [if c.closed then Gone(id) else if c.allowed.Some? then Misdirected(id) else Released(id, c.port)]
    {
      var sent: seq<Device> := [];
      if c.closed {
        log := log + [Gone(id)];
      } else if c.allowed.Some? {
        log := log + [Misdirected(id)];
      } else {
        sent := [device];
        log := log + [Released(id, c.port)];
      }
      wire := wire[c.port := Queue(wire, c.port) + sent];
    }

    method SendAll(c: Chan, device: Device, ids: seq<nat>)
      modifies `wire, `log
      ensures wire == old(wire)[c.port := Queue(old(wire), c.port) + Sent(c, device, ids).0]
      ensures log == old(log) + Sent(c, device, ids).1
    {
      wire := wire[c.port := Queue(wire, c.port)];
      for i := 0 to |ids|
        invariant c.port in wire && wire[c.port] == Queue(old(wire), c.port) + Sent(c, device, ids[..i]).0
        invariant wire == old(wire)[c.port := wire[c.port]]
        invariant log == old(log) + Sent(c, device, ids[..i]).1
      {
        assert ids[..i + 1][..i] == ids[..i];
        Send(c, device, ids[i]);
      }
      assert ids[..|ids|] == ids;
    }

    method FlushPendingPeerInvokes(w: Worker, device: Device, target: Option<Worker>, code: string, ghost rest: Sys)
      requires Valid()
      modifies `pendingPeerInvokes, `wire, `log
      ensures State(rest) == Flush(old(State(rest)), w, device, target, code)
    {
      var here := At(w, device);
      if here !in pendingPeerInvokes { return; }
      var queued := pendingPeerInvokes[here];
      pendingPeerInvokes := pendingPeerInvokes - {here};
      if target.None? {
        AnswerAll(seq(|queued|, i requires 0 <= i < |queued| => Failed(queued[i], code)));
      } else if Pair(w, target.value) !in peerChannels {
        AnswerAll(seq(|queued|, i requires 0 <= i < |queued| => Gone(queued[i])));
      } else {
        SendAll(chans[peerChannels[Pair(w, target.value)]], device, queued);
      }
    }

    /** The callbacks of queued calls run in order. */
    method AnswerAll(answers: seq<Event>)
      modifies `log
      ensures log == old(log) + answers
    {
      for i := 0 to |answers|
        invariant log == old(log) + answers[..i]
      {
        log := log + [answers[i]];
      }
      assert answers[..|answers|] == answers;
    }

    method InvokeActionViaPeerChannel(w: Worker, device: Device, key: Key, ghost rest: Sys)
      requires Valid()
      modifies `calls, `pendingPeerInvokes, `outbox, `wire, `log
      ensures State(rest) == CallDevice(old(State(rest)), w, device, key)
    {
      var id, here := calls, At(w, device);
      calls := calls + 1;
      if here in peerDeviceWorkerMap {
        var slot := Pair(w, peerDeviceWorkerMap[here]);
        if slot in peerChannels && !chans[peerChannels[slot]].closed {
          SendAll(chans[peerChannels[slot]], device, [id]);
          return;
        }
      }
      Enqueue(w, device, key, id);
    }

    /** Only the first call waiting for a device sends a request. */
    method Enqueue(w: Worker, device: Device, key: Key, id: nat)
      modifies `pendingPeerInvokes, `outbox
      ensures var here := At(w, device);
        pendingPeerInvokes == old(pendingPeerInvokes)[here := if here in old(pendingPeerInvokes) then old(pendingPeerInvokes)[here] + [id] else [id]]
      ensures outbox == if At(w, device) in old(pendingPeerInvokes) then old(outbox) else Push(old(outbox), w, ChannelRequest(device, key))
    {
      var here := At(w, device);
      if here !in pendingPeerInvokes {
        pendingPeerInvokes := pendingPeerInvokes[here := []];
        outbox := Push(outbox, w, ChannelRequest(device, key));
      }
      assert [] + [id] == [id];
      pendingPeerInvokes := pendingPeerInvokes[here := pendingPeerInvokes[here] + [id]];
    }

    method OnPeerChannelGrant(w: Worker, device: Device, target: Worker, port: Option<nat>, ghost rest: Sys)
      requires Valid()
      modifies `peerChannels, `chans, `peerDeviceWorkerMap, `pendingPeerInvokes, `wire, `log
      ensures Valid()
      ensures State(rest) == WorkerHandles(old(State(rest)), w, ChannelGrant(device, target, port))
    {
      AttachPort(w, device, target, port);
      FlushPendingPeerInvokes(w, device, Some(target), "", rest);
    }

    method AttachPort(w: Worker, device: Device, target: Worker, port: Option<nat>)
      requires Valid()
      modifies `peerChannels, `chans, `peerDeviceWorkerMap
      ensures Valid()
      ensures Channels() == Attach(old(Channels()), w, device, target, port)
    {
      var slot := Pair(w, target);
      peerDeviceWorkerMap := peerDeviceWorkerMap[At(w, device) := target];
      if port.Some? && (slot !in peerChannels || chans[peerChannels[slot]].closed) {
        peerChannels := peerChannels[slot := |chans|];
        chans := chans + [Chan(w, target, port.value, None, false)];
      }
    }

    method OnPeerChannelDeny(w: Worker, device: Device, code: string, ghost rest: Sys)
      requires Valid()
      modifies `pendingPeerInvokes, `wire, `log
      ensures State(rest) == WorkerHandles(old(State(rest)), w, ChannelDeny(device, code))
    {
      FlushPendingPeerInvokes(w, device, None, code, rest);
    }

    method OnPeerChannelOpen(w: Worker, caller: Worker, key: Key, device: Device, port: nat, ghost rest: Sys)
      requires Valid()
      modifies `peerChannels, `chans, `lastOpen
      ensures Valid()
      ensures State(rest) == WorkerHandles(old(State(rest)), w, ChannelOpen(caller, key, device, port))
    {
      peerChannels, lastOpen := peerChannels[Pair(w, caller) := |chans|], lastOpen[Pair(w, caller) := |chans|];
      chans := chans + [Chan(w, caller, port, Some({device}), false)];
    }

    /** The device manager's message handler answers the Allow once this returns. */
    method OnPeerChannelAllow(w: Worker, caller: Worker, device: Device, id: nat, ghost port: nat, ghost rest: Sys)
      requires Valid()
      modifies `chans, `outbox
      ensures Valid()
      ensures State(rest) == WorkerHandles(old(State(rest)), w, ChannelAllow(caller, device, id, port))
    {
      var slot := Pair(w, caller);
      if slot in peerChannels && chans[peerChannels[slot]].allowed.Some? {
        var c := peerChannels[slot];
        chans := chans[c := chans[c].(allowed := Some(chans[c].allowed.value + {device}))];
      }
      outbox := Push(outbox, w, AllowReply(id));
    }

    method OnPeerInvalidate(w: Worker, peer: Worker)
      requires Valid()
      modifies `peerChannels, `chans
      ensures Valid()
      ensures Channels() == CloseSlot(old(Channels()), w, peer)
    {
      if Pair(w, peer) in peerChannels { InvalidateChannel(peerChannels[Pair(w, peer)]); }
    }

    /** `PeerChannel.invalidate` and the `onClose` both roles pass it; also the port's own 'close' event. */
    method InvalidateChannel(c: nat)
      requires Valid() && c < |chans|
      modifies `peerChannels, `chans
      ensures Valid()
      ensures Channels() == Close(old(Channels()), c)
    {
      if chans[c].closed { return; }
      var slot := Pair(chans[c].owner, chans[c].peer);
      chans := chans[c := chans[c].(closed := true)];
      if slot in peerChannels && peerChannels[slot] == c { peerChannels := peerChannels - {slot}; }
    }
  }
}
