/**
 Brokering of direct peer channels: the broker on the main thread
 (lib/peer-channel-broker.js), the worker-side halves (lib/device-manager.js) and the two
 FIFO queues between the main thread and each worker.  A step is one atomic event handler.

 Every PeerChannel object ever made is kept in `chans`, because one that has lost its slot
 still has its port.  `wire[p]` holds the invokes sent to the callee end of port `p` and not
 yet given to its handler: the sender's queue, the port and the callee's dispatch queue are
 one FIFO (PeerLink.ServedInCallOrder).

 The port numbers carried by Allow and Invalidate, the map `lastOpen` and the log are history:
 no handler reads them.
 */
module PeerBrokering {
  import opened Wrappers

  type Worker = nat
  type Device = string
  type Key = Option<string>

  /** An ordered pair of workers: caller and callee in the registry, owner and peer in a slot. */
  datatype Pair = Pair(one: Worker, other: Worker)

  datatype At = At(worker: Worker, device: Device)

  datatype Grant = Grant(key: Key, device: Device)

  /** One open channel of the registry: its port pair and every grant behind it. */
  datatype Entry = Entry(port: nat, grants: set<Grant>)

  datatype ToWorker =
    | ChannelGrant(device: Device, target: Worker, newPort: Option<nat>)
    | ChannelDeny(device: Device, code: string)
    | ChannelOpen(caller: Worker, key: Key, device: Device, port: nat)
    | ChannelAllow(caller: Worker, device: Device, id: nat, port: nat)
    | Invalidate(peer: Worker, closes: Option<nat>)

  datatype ToMain = ChannelRequest(device: Device, key: Key) | AllowReply(id: nat) | SelfInvalidate

  /** A `userAuth` call made for a request: without a callee it only decides which denial is sent. */
  datatype Check = Check(caller: Worker, device: Device, key: Key, callee: Option<Worker>, code: string)

  datatype Await = Await(callee: Worker, caller: Worker, device: Device)

  datatype Recheck = Recheck(pair: Pair, port: nat, grant: Grant)

  /** One PeerChannel object; only a callee end has a set of allowed devices. */
  datatype Chan = Chan(owner: Worker, peer: Worker, port: nat, allowed: Option<set<Device>>, closed: bool)

  datatype Event =
    | Authorized(port: nat, caller: Worker, callee: Worker, grant: Grant)
    | Served(port: nat, callee: Worker, device: Device)
    | Refused(port: nat, callee: Worker, device: Device)      // PEER_NOT_GRANTED
    | Released(call: nat, port: nat)
    | Misdirected(call: nat)                                   // sent to an end without a handler
    | Gone(call: nat)                                          // PEER_GONE: no live channel to send it on
    | Failed(call: nat, code: string)
    | Invalidated(port: nat)

  /** The main thread's state: the broker's registry and the callbacks it is waiting for. */
  datatype Main = Main(
    deviceMap: map<Device, Worker>, registry: map<Pair, Entry>, checks: seq<Check>,
    awaiting: map<nat, Await>, rechecks: set<Recheck>, nextPort: nat, nextAllow: nat, ended: map<Worker, string>)

  /** The channel state of all workers: `slots` is `peerChannels`, `waiting` is `pendingPeerInvokes`. */
  datatype Ends = Ends(
    slots: map<Pair, nat>, lastOpen: map<Pair, nat>, chans: seq<Chan>,
    deviceWorker: map<At, Worker>, waiting: map<At, seq<nat>>, calls: nat)

  type Inbox = map<Worker, seq<ToWorker>>

  datatype Sys = Sys(
    main: Main, ends: Ends, inbox: Inbox, outbox: map<Worker, seq<ToMain>>,
    wire: map<nat, seq<Device>>, log: seq<Event>)

  function Start(): Sys {
    Sys(Main(map[], map[], [], map[], {}, 0, 0, map[]), Ends(map[], map[], [], map[], map[], 0),
        map[], map[], map[], [])
  }

  function Queue<K, V>(m: map<K, seq<V>>, k: K): seq<V> { if k in m then m[k] else [] }

  function Push<K, V>(m: map<K, seq<V>>, k: K, v: V): map<K, seq<V>> { m[k := Queue(m, k) + [v]] }

  lemma {:induction false} PushFirst<K, V>(m: map<K, seq<V>>, k: K, v: V)
    requires Queue(m, k) == []
    ensures Push(m, k, v) == m[k := [v]]
  {
    assert Queue(m, k) + [v] == [v];
  }

  // ----- main thread: the broker -----

  function Deny(s: Sys, w: Worker, device: Device, code: string): Sys {
    s.(inbox := Push(s.inbox, w, ChannelDeny(device, code)))
  }

  function AddCheck(s: Sys, c: Check): Sys { s.(main := s.main.(checks := s.main.checks + [c])) }

  /** `missing` is the code of `missingDeviceError`, asked only for a device no worker hosts. */
  function HandleRequest(s: Sys, caller: Worker, device: Device, key: Key, missing: string): Sys {
    if device !in s.main.deviceMap then
      if missing != "DEVICE_NOT_FOUND" then AddCheck(s, Check(caller, device, key, None, missing))
      else Deny(s, caller, device, missing)
    else if s.main.deviceMap[device] == caller then Deny(s, caller, device, "PEER_SELF_TARGET")
    else AddCheck(s, Check(caller, device, key, Some(s.main.deviceMap[device]), ""))
  }

  function GrantChannel(s: Sys, device: Device, key: Key, caller: Worker, callee: Worker): Sys {
    if Pair(caller, callee) in s.main.registry then GrantOnOpen(s, device, key, caller, callee)
    else GrantNew(s, device, key, caller, callee)
  }

  function GrantOnOpen(s: Sys, device: Device, key: Key, caller: Worker, callee: Worker): Sys
    requires Pair(caller, callee) in s.main.registry
  {
    var m := s.main;
    var e := m.registry[Pair(caller, callee)];
    var m1 := m.(registry := m.registry[Pair(caller, callee) := e.(grants := e.grants + {Grant(key, device)})]);
    var log := s.log + [Authorized(e.port, caller, callee, Grant(key, device))];
    if callee in m.ended then Deny(s.(main := m1, log := log), caller, device, m.ended[callee])
    else
      s.(main := m1.(awaiting := m.awaiting[m.nextAllow := Await(callee, caller, device)], nextAllow := m.nextAllow + 1),
         inbox := Push(s.inbox, callee, ChannelAllow(caller, device, m.nextAllow, e.port)),
         log := log)
  }

  function GrantNew(s: Sys, device: Device, key: Key, caller: Worker, callee: Worker): Sys {
    var p := s.main.nextPort;
    s.(main := s.main.(registry := s.main.registry[Pair(caller, callee) := Entry(p, {Grant(key, device)})],
                       nextPort := p + 1),
       inbox := Push(Push(s.inbox, callee, ChannelOpen(caller, key, device, p)),
                     caller, ChannelGrant(device, callee, Some(p))),
       log := s.log + [Authorized(p, caller, callee, Grant(key, device))])
  }

  /** `userAuth` calls back for `checks[i]`: with no error, or with the error `code`. */
  function Authenticated(s: Sys, i: nat, ok: bool, code: string): Sys
    requires i < |s.main.checks|
  {
    var c := s.main.checks[i];
    var s1 := s.(main := s.main.(checks := s.main.checks[..i] + s.main.checks[i + 1..]));
    if !ok then Deny(s1, c.caller, c.device, code)
    else if c.callee.None? then Deny(s1, c.caller, c.device, c.code)
    else GrantChannel(s1, c.device, c.key, c.caller, c.callee.value)
  }

  /** The callee answered a ChannelAllow. */
  function Allowed(s: Sys, id: nat): Sys {
    if id !in s.main.awaiting then s
    else
      var a := s.main.awaiting[id];
      s.(main := s.main.(awaiting := s.main.awaiting - {id}),
         inbox := Push(s.inbox, a.caller, ChannelGrant(a.device, a.callee, None)))
  }

  function AllGrants(registry: map<Pair, Entry>): set<Recheck> {
    set p, g | p in registry && g in registry[p].grants :: Recheck(p, registry[p].port, g)
  }

  function RecheckGrants(s: Sys): Sys {
    if s.main.rechecks != {} then s else s.(main := s.main.(rechecks := AllGrants(s.main.registry)))
  }

  function Rechecked(s: Sys, r: Recheck, ok: bool): Sys {
    if r !in s.main.rechecks then s
    else
      var s1 := s.(main := s.main.(rechecks := s.main.rechecks - {r}));
      if ok then s1 else CloseRevoked(s1, r.pair, r.port)
  }

  /** The registry entry is named by its port: another entry may have taken its place. */
  function CloseRevoked(s: Sys, pair: Pair, port: nat): Sys {
    if pair !in s.main.registry || s.main.registry[pair].port != port then s
    else
      s.(main := s.main.(registry := s.main.registry - {pair}),
         inbox := Push(Push(s.inbox, pair.one, Invalidate(pair.other, None)),
                       pair.other, Invalidate(pair.one, Some(port))))
  }

  /** What `w` going stale sends to `o`: one message for each channel between them. */
  function Invalidations(registry: map<Pair, Entry>, w: Worker, o: Worker): seq<ToWorker> {
    if o == w then []
    else
      (if Pair(w, o) in registry then [Invalidate(w, Some(registry[Pair(w, o)].port))] else []) +
      (if Pair(o, w) in registry then [Invalidate(w, None)] else [])
  }

  predicate Involves(p: Pair, w: Worker) { p.one == w || p.other == w }

  function Parties(registry: map<Pair, Entry>): set<Worker> {
    (set p | p in registry :: p.one) + (set p | p in registry :: p.other)
  }

  function InvalidateWorker(s: Sys, w: Worker): Sys {
    var registry := s.main.registry;
    s.(main := s.main.(registry := map p | p in registry && !Involves(p, w) :: registry[p]),
       inbox := map o | o in s.inbox.Keys + Parties(registry) :: Queue(s.inbox, o) + Invalidations(registry, w, o))
  }

  function Purge(s: Sys, w: Worker): Sys {
    var left := map d | d in s.main.deviceMap && s.main.deviceMap[d] != w :: s.main.deviceMap[d];
    InvalidateWorker(s.(main := s.main.(deviceMap := left)), w)
  }

  /** The denials a worker's end sends to `caller` for the ChannelAllows it never answered. */
  function Denials(awaiting: map<nat, Await>, n: nat, callee: Worker, caller: Worker, code: string): seq<ToWorker> {
    if n == 0 then []
    else
      Denials(awaiting, n - 1, callee, caller, code) +
      if n - 1 in awaiting && awaiting[n - 1].callee == callee && awaiting[n - 1].caller == caller
      then [ChannelDeny(awaiting[n - 1].device, code)] else []
  }

  function WorkerEnds(s: Sys, w: Worker, code: string): Sys {
    var m := s.main;
    if w in m.ended then s
    else
      var callers := set id | id in m.awaiting :: m.awaiting[id].caller;
      s.(main := m.(ended := m.ended[w := code],
                    awaiting := map id | id in m.awaiting && m.awaiting[id].callee != w :: m.awaiting[id]),
         inbox := map a | a in s.inbox.Keys + callers ::
                    Queue(s.inbox, a) + Denials(m.awaiting, m.nextAllow, w, a, code))
  }

  /**
   The main thread handles the oldest message of worker `w`.  `limited` is its token bucket's
   verdict on a request, and of an invalidation whether one was handled in the same turn already.
   */
  function MainReceives(s: Sys, w: Worker, limited: bool, missing: string): Sys {
    if Queue(s.outbox, w) == [] then s
    else
      var s1 := s.(outbox := s.outbox[w := s.outbox[w][1..]]);
      match s.outbox[w][0]
      case ChannelRequest(d, k) =>
        if limited then Deny(s1, w, d, "RATE_LIMITED") else HandleRequest(s1, w, d, k, missing)
      case AllowReply(id) => Allowed(s1, id)
      case SelfInvalidate => if limited then s1 else InvalidateWorker(s1, w)
  }

  // ----- a worker, caller role -----

  ghost predicate Sound(e: Ends) { forall p :: p in e.slots ==> e.slots[p] < |e.chans| }

  /** What sending each call in `ids` on channel `c` puts on the wire and in the log. */
  function Sent(c: Chan, device: Device, ids: seq<nat>): (seq<Device>, seq<Event>) {
    if ids == [] then ([], [])
    else
      var (ds, es) := Sent(c, device, ids[..|ids| - 1]);
      var id := ids[|ids| - 1];
      if c.closed then (ds, es + [Gone(id)])
      else if c.allowed.Some? then (ds, es + [Misdirected(id)])
      else (ds + [device], es + [Released(id, c.port)])
  }

  function SendCalls(s: Sys, c: Chan, device: Device, ids: seq<nat>): Sys {
    var (ds, es) := Sent(c, device, ids);
    s.(wire := s.wire[c.port := Queue(s.wire, c.port) + ds], log := s.log + es)
  }

  function FailCalls(s: Sys, ids: seq<nat>, code: string): Sys {
    s.(log := s.log + seq(|ids|, i requires 0 <= i < |ids| => Failed(ids[i], code)))
  }

  function LoseCalls(s: Sys, ids: seq<nat>): Sys {
    s.(log := s.log + seq(|ids|, i requires 0 <= i < |ids| => Gone(ids[i])))
  }

  /** The open channel `w` may use for `device` without asking the broker. */
  function FastPath(e: Ends, w: Worker, device: Device): Option<Chan>
    requires Sound(e)
  {
    if At(w, device) !in e.deviceWorker then None
    else
      var slot := Pair(w, e.deviceWorker[At(w, device)]);
      if slot in e.slots && !e.chans[e.slots[slot]].closed then Some(e.chans[e.slots[slot]]) else None
  }

  /** `invokeActionViaPeerChannel`. */
  function CallDevice(s: Sys, w: Worker, device: Device, key: Key): Sys
    requires Sound(s.ends)
  {
    var id := s.ends.calls;
    var here := At(w, device);
    var e := s.ends.(calls := id + 1);
    var fast := FastPath(s.ends, w, device);
    if fast.Some? then SendCalls(s.(ends := e), fast.value, device, [id])
    else if here !in e.waiting then
      s.(ends := e.(waiting := e.waiting[here := [id]]), outbox := Push(s.outbox, w, ChannelRequest(device, key)))
    else
      s.(ends := e.(waiting := e.waiting[here := e.waiting[here] + [id]]))
  }

  /** `flushPendingPeerInvokes`: `target` is null after a denial. */
  function Flush(s: Sys, w: Worker, device: Device, target: Option<Worker>, code: string): Sys
    requires Sound(s.ends)
  {
    var here := At(w, device);
    var e := s.ends;
    if here !in e.waiting then s
    else
      var s1 := s.(ends := e.(waiting := e.waiting - {here}));
      if target.None? then FailCalls(s1, e.waiting[here], code)
      else if Pair(w, target.value) !in e.slots then LoseCalls(s1, e.waiting[here])
      else SendCalls(s1, e.chans[e.slots[Pair(w, target.value)]], device, e.waiting[here])
  }

  function Attach(e: Ends, w: Worker, device: Device, target: Worker, port: Option<nat>): Ends
    requires Sound(e)
  {
    var slot := Pair(w, target);
    var e1 := e.(deviceWorker := e.deviceWorker[At(w, device) := target]);
    if port.Some? && (slot !in e.slots || e.chans[e.slots[slot]].closed) then
      e1.(chans := e.chans + [Chan(w, target, port.value, None, false)], slots := e.slots[slot := |e.chans|])
    else e1
  }

  // ----- a worker, callee role -----

  function Open(e: Ends, w: Worker, caller: Worker, device: Device, port: nat): Ends {
    e.(chans := e.chans + [Chan(w, caller, port, Some({device}), false)],
       slots := e.slots[Pair(w, caller) := |e.chans|],
       lastOpen := e.lastOpen[Pair(w, caller) := |e.chans|])
  }

  function Allow(e: Ends, w: Worker, caller: Worker, device: Device): Ends
    requires Sound(e)
  {
    var slot := Pair(w, caller);
    if slot !in e.slots || e.chans[e.slots[slot]].allowed.None? then e
    else
      var c := e.slots[slot];
      e.(chans := e.chans[c := e.chans[c].(allowed := Some(e.chans[c].allowed.value + {device}))])
  }

  /** `PeerChannel.invalidate` with the `onClose` of either role. */
  function Close(e: Ends, c: nat): Ends
    requires c < |e.chans|
  {
    if e.chans[c].closed then e
    else
      var slot := Pair(e.chans[c].owner, e.chans[c].peer);
      e.(chans := e.chans[c := e.chans[c].(closed := true)],
         slots := if slot in e.slots && e.slots[slot] == c then e.slots - {slot} else e.slots)
  }

  /** `onPeerInvalidate`. */
  function CloseSlot(e: Ends, w: Worker, peer: Worker): Ends
    requires Sound(e)
  {
    if Pair(w, peer) in e.slots then Close(e, e.slots[Pair(w, peer)]) else e
  }

  /** The callee end `ch` gives its oldest invoke to its handler. */
  function Dispatch(s: Sys, ch: Chan): Sys {
    if ch.closed || ch.allowed.None? || Queue(s.wire, ch.port) == [] then s
    else
      var d := s.wire[ch.port][0];
      s.(wire := s.wire[ch.port := s.wire[ch.port][1..]],
         log := s.log + [if d in ch.allowed.value then Served(ch.port, ch.owner, d) else Refused(ch.port, ch.owner, d)])
  }

  /** Worker `w` handles the oldest message from the main thread. */
  function WorkerReceives(s: Sys, w: Worker): Sys
    requires Sound(s.ends)
  {
    if Queue(s.inbox, w) == [] then s
    else WorkerHandles(s.(inbox := s.inbox[w := s.inbox[w][1..]]), w, s.inbox[w][0])
  }

  function WorkerHandles(s: Sys, w: Worker, m: ToWorker): Sys
    requires Sound(s.ends)
  {
    match m
    case ChannelGrant(d, t, p) => Flush(s.(ends := Attach(s.ends, w, d, t, p)), w, d, Some(t), "")
    case ChannelDeny(d, code) => Flush(s, w, d, None, code)
    case ChannelOpen(a, k, d, p) => s.(ends := Open(s.ends, w, a, d, p))
    case ChannelAllow(a, d, id, p) =>
      s.(ends := Allow(s.ends, w, a, d), outbox := Push(s.outbox, w, AllowReply(id)))
    case Invalidate(o, closes) =>
      s.(ends := CloseSlot(s.ends, w, o), log := s.log + if closes.Some? then [Invalidated(closes.value)] else [])
  }

  // ----- runs -----

  datatype Step =
    | CallStep(w: Worker, device: Device, key: Key)
    | MainStep(w: Worker, limited: bool, missing: string)
    | AuthStep(i: nat, ok: bool, code: string)
    | WorkerStep(w: Worker)
    | RecheckStep
    | RecheckedStep(r: Recheck, ok: bool)
    | SelfInvalidateStep(w: Worker)
    | PurgeStep(w: Worker)
    | EndStep(w: Worker, code: string)
    | PortCloseStep(c: nat)                       // the port's own 'close' event
    | DispatchStep(c: nat)
    | ForgeStep(port: nat, device: Device)        // module code posts an invoke of its own on a port
    | DropStep(port: nat, i: nat)                 // a call times out before it leaves its send queue
    | OnlineStep(device: Device, w: Worker)

  function Next(s: Sys, step: Step): Sys
    requires Sound(s.ends)
  {
    match step
    case CallStep(w, d, k) => CallDevice(s, w, d, k)
    case MainStep(w, limited, missing) => MainReceives(s, w, limited, missing)
    case AuthStep(i, ok, code) => if i < |s.main.checks| then Authenticated(s, i, ok, code) else s
    case WorkerStep(w) => WorkerReceives(s, w)
    case RecheckStep => RecheckGrants(s)
    case RecheckedStep(r, ok) => Rechecked(s, r, ok)
    case SelfInvalidateStep(w) => s.(outbox := Push(s.outbox, w, SelfInvalidate))
    case PurgeStep(w) => Purge(s, w)
    case EndStep(w, code) => WorkerEnds(s, w, code)
    case PortCloseStep(c) => if c < |s.ends.chans| then s.(ends := Close(s.ends, c)) else s
    case DispatchStep(c) => if c < |s.ends.chans| then Dispatch(s, s.ends.chans[c]) else s
    case ForgeStep(p, d) => s.(wire := Push(s.wire, p, d))
    case DropStep(p, i) =>
      if i < |Queue(s.wire, p)| then s.(wire := s.wire[p := s.wire[p][..i] + s.wire[p][i + 1..]]) else s
    case OnlineStep(d, w) => s.(main := s.main.(deviceMap := s.main.deviceMap[d := w]))
  }

  lemma NextSound(s: Sys, step: Step)
    requires Sound(s.ends)
    ensures Sound(Next(s, step).ends)
  {
    match step
    case WorkerStep(w) =>
      if Queue(s.inbox, w) != [] { HandlesSound(s.(inbox := s.inbox[w := s.inbox[w][1..]]), w, s.inbox[w][0]); }
    case MainStep(w, limited, missing) => assert Next(s, step).ends == s.ends;
    case AuthStep(i, ok, code) => assert Next(s, step).ends == s.ends;
    case _ =>
  }

  lemma HandlesSound(s: Sys, w: Worker, m: ToWorker)
    requires Sound(s.ends)
    ensures Sound(WorkerHandles(s, w, m).ends)
  {
    match m
    case ChannelGrant(d, t, p) =>
      AttachSound(s.ends, w, d, t, p);
      FlushSound(s.(ends := Attach(s.ends, w, d, t, p)), w, d, Some(t), "");
    case ChannelDeny(d, code) => FlushSound(s, w, d, None, code);
    case _ =>
  }

  lemma AttachSound(e: Ends, w: Worker, device: Device, target: Worker, port: Option<nat>)
    requires Sound(e)
    ensures Sound(Attach(e, w, device, target, port))
  {
  }

  lemma FlushSound(s: Sys, w: Worker, device: Device, target: Option<Worker>, code: string)
    requires Sound(s.ends)
    ensures Sound(Flush(s, w, device, target, code).ends)
  {
  }

  /** The state after a run: every reachable state is `Exec(steps)` for some `steps`. */
  function Exec(steps: seq<Step>): (s: Sys)
    ensures Sound(s.ends)
    decreases |steps|
  {
    if steps == [] then Start()
    else
      var before := Exec(steps[..|steps| - 1]);
      NextSound(before, steps[|steps| - 1]);
      Next(before, steps[|steps| - 1])
  }
}
