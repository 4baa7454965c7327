/**
 Why completeness needs runs without invalidation: a worker keeps the worker a device was mapped
 to when its channel closes (lib/device-manager.js:287-293).  A call for that device takes the
 fast path as soon as any channel to that worker is open again, although the callee has not been
 told of the device on the new one, and is refused PEER_NOT_GRANTED.
 */
module PeerReopened {
  import opened Wrappers
  import opened PeerBrokering
  import opened PeerResults

  // ----- exactly when a call is refused -----

  ghost predicate AnyRefused(es: seq<Event>) { exists ev :: ev in es && ev.Refused? }

  /** A step that gives a callee an invoke for a device its channel does not allow. */
  predicate DispatchesUnallowed(s: Sys, step: Step) {
    && step.DispatchStep? && step.c < |s.ends.chans|
    && var ch := s.ends.chans[step.c];
      !ch.closed && ch.allowed.Some? && Queue(s.wire, ch.port) != [] && s.wire[ch.port][0] !in ch.allowed.value
  }

  lemma {:induction false} SentReleased(c: Chan, device: Device, ids: seq<nat>)
    ensures !AnyRefused(Sent(c, device, ids).1)
  {
    if ids != [] { SentReleased(c, device, ids[..|ids| - 1]); }
  }

  lemma {:induction false} FlushAdds(s: Sys, w: Worker, device: Device, target: Option<Worker>, code: string) returns (es: seq<Event>)
    requires Sound(s.ends)
    ensures Flush(s, w, device, target, code).log == s.log + es && !AnyRefused(es)
  {
    es := Flush(s, w, device, target, code).log[|s.log|..];
    if At(w, device) in s.ends.waiting && target.Some? && Pair(w, target.value) in s.ends.slots {
      SentReleased(s.ends.chans[s.ends.slots[Pair(w, target.value)]], device, s.ends.waiting[At(w, device)]);
    }
  }

  lemma {:induction false} WorkerAdds(s: Sys, w: Worker, m: ToWorker) returns (es: seq<Event>)
    requires Sound(s.ends)
    ensures WorkerHandles(s, w, m).log == s.log + es && !AnyRefused(es)
  {
    match m
    case ChannelGrant(d, t, p) =>
      AttachSound(s.ends, w, d, t, p);
      es := FlushAdds(s.(ends := Attach(s.ends, w, d, t, p)), w, d, Some(t), "");
    case ChannelDeny(d, code) => es := FlushAdds(s, w, d, None, code);
    case _ => es := WorkerHandles(s, w, m).log[|s.log|..];
  }

  lemma {:induction false} CallAdds(s: Sys, w: Worker, d: Device, k: Key) returns (es: seq<Event>)
    requires Sound(s.ends)
    ensures CallDevice(s, w, d, k).log == s.log + es && !AnyRefused(es)
  {
    es := CallDevice(s, w, d, k).log[|s.log|..];
    if FastPath(s.ends, w, d).Some? { SentReleased(FastPath(s.ends, w, d).value, d, [s.ends.calls]); }
  }

  lemma {:induction false} DispatchAdds(s: Sys, c: nat) returns (es: seq<Event>)
    requires c < |s.ends.chans|
    ensures Dispatch(s, s.ends.chans[c]).log == s.log + es && (AnyRefused(es) <==> DispatchesUnallowed(s, DispatchStep(c)))
  {
    var ch := s.ends.chans[c];
    es := Dispatch(s, ch).log[|s.log|..];
    if DispatchesUnallowed(s, DispatchStep(c)) {
      assert es == [Refused(ch.port, ch.owner, s.wire[ch.port][0])];
      assert es[0] in es;
    }
  }

  lemma {:induction false} AuthAdds(s: Sys, i: nat, ok: bool, code: string) returns (es: seq<Event>)
    requires i < |s.main.checks|
    ensures Authenticated(s, i, ok, code).log == s.log + es && !AnyRefused(es)
  {
    es := Authenticated(s, i, ok, code).log[|s.log|..];
  }

  lemma {:induction false} OtherAdds(s: Sys, step: Step) returns (es: seq<Event>)
    requires Sound(s.ends) && !step.CallStep? && !step.WorkerStep?
    ensures Next(s, step).log == s.log + es && (AnyRefused(es) <==> DispatchesUnallowed(s, step))
  {
    if step.DispatchStep? && step.c < |s.ends.chans| {
      es := DispatchAdds(s, step.c);
    } else if step.AuthStep? && step.i < |s.main.checks| {
      es := AuthAdds(s, step.i, step.ok, step.code);
    } else {
      es := [];
    }
  }

  lemma {:induction false} StepAdds(s: Sys, step: Step) returns (es: seq<Event>)
    requires Sound(s.ends)
    ensures Next(s, step).log == s.log + es && (AnyRefused(es) <==> DispatchesUnallowed(s, step))
  {
    if step.CallStep? {
      es := CallAdds(s, step.w, step.device, step.key);
    } else if step.WorkerStep? {
      if Queue(s.inbox, step.w) == [] {
        es := [];
      } else {
        es := WorkerAdds(s.(inbox := s.inbox[step.w := s.inbox[step.w][1..]]), step.w, s.inbox[step.w][0]);
      }
    } else {
      es := OtherAdds(s, step);
    }
  }

  lemma AnyConcat(es: seq<Event>, fs: seq<Event>)
    ensures AnyRefused(es + fs) <==> AnyRefused(es) || AnyRefused(fs)
  {
  }

  /** In every run, a call is refused exactly if some callee was given an invoke for a device its channel did not allow. */
  lemma {:induction false} RefusedIffUnallowed(ss: seq<Sys>, steps: seq<Step>)
    requires IsRun(ss, steps)
    ensures AnyRefused(ss[|steps|].log) <==> exists i :: 0 <= i < |steps| && DispatchesUnallowed(ss[i], steps[i])
    decreases |steps|
  {
    if steps != [] {
      var n := |steps| - 1;
      assert IsRun(ss[..n + 1], steps[..n]);
      RefusedIffUnallowed(ss[..n + 1], steps[..n]);
      assert Follows(ss[n], steps[n], ss[n + 1]);
      var es := StepAdds(ss[n], steps[n]);
      AnyConcat(ss[n].log, es);
      assert ss[..n + 1][n] == ss[n];
      if i :| 0 <= i < |steps| && DispatchesUnallowed(ss[i], steps[i]) && i != n {
        assert DispatchesUnallowed(ss[..n + 1][i], steps[..n][i]);
      }
      if i :| 0 <= i < n && DispatchesUnallowed(ss[..n + 1][i], steps[..n][i]) {
        assert DispatchesUnallowed(ss[i], steps[i]);
      }
    }
  }

  /**
   In every run, an invoke for a device that was not granted on the very port it is on, be it on an
   earlier port of the same workers or not at all, is refused when its turn comes.
   */
  lemma {:induction false} UngrantedIsRefused(ss: seq<Sys>, steps: seq<Step>, c: nat, s': Sys)
    requires IsRun(ss, steps) && c < |ss[|steps|].ends.chans| && Follows(ss[|steps|], DispatchStep(c), s')
    requires var s := ss[|steps|]; var ch := s.ends.chans[c];
      && !ch.closed && ch.allowed.Some? && Queue(s.wire, ch.port) != []
      && forall i, a, k :: 0 <= i < |s.log| ==> s.log[i] != Authorized(ch.port, a, ch.owner, Grant(k, s.wire[ch.port][0]))
    ensures var s := ss[|steps|]; var ch := s.ends.chans[c];
      s'.log == s.log + [Refused(ch.port, ch.owner, s.wire[ch.port][0])]
  {
    var s, step := ss[|steps|], DispatchStep(c);
    var ch := s.ends.chans[c];
    if s.wire[ch.port][0] in ch.allowed.value {
      var ss', steps' := ss + [s'], steps + [step];
      forall i | 0 <= i < |steps'| ensures Follows(ss'[i], steps'[i], ss'[i + 1]) {
        if i < |steps| { assert Follows(ss[i], steps[i], ss[i + 1]); }
      }
      assert IsRun(ss', steps') && ss'[|steps'|] == s';
      ServedOnlyIfAuthorized(ss', steps', |s.log|);
    }
  }

  /** A call on the fast path, with nothing before it on its port, is refused exactly if the callee's end does not allow its device. */
  lemma {:induction false} FastCallRefusedIff(s: Sys, s': Sys, w: Worker, d: Device, k: Key, c: nat)
    requires Sound(s.ends) && s' == CallDevice(s, w, d, k) && c < |s.ends.chans|
    requires var fast, ch := FastPath(s.ends, w, d), s.ends.chans[c];
      && fast.Some? && fast.value.allowed.None? && ch.port == fast.value.port
      && !ch.closed && ch.allowed.Some? && Queue(s.wire, ch.port) == []
    ensures DispatchesUnallowed(s', DispatchStep(c)) <==> d !in s.ends.chans[c].allowed.value
    ensures Sound(s'.ends) && Queue(s'.wire, s.ends.chans[c].port) == [d]
  {
    var fast := FastPath(s.ends, w, d).value;
    assert Sent(fast, d, [s.ends.calls][..0]) == ([], []);
    assert Sent(fast, d, [s.ends.calls]).0 == [d];
    assert Queue(s'.wire, fast.port) == [d];
  }

  // ----- a run that does -----

  const D2: Device := "d2"
  const D3: Device := "d3"

  const FIRST: Pair := Pair(1, 2)
  const BACK: Pair := Pair(2, 1)
  const CALLEE: Chan := Chan(2, 1, 0, Some({D2}), false)
  const CALLER: Chan := Chan(1, 2, 0, None, false)
  const NEW_CALLEE: Chan := Chan(2, 1, 1, Some({D3}), false)
  const NEW_CALLER: Chan := Chan(1, 2, 1, None, false)
  const OLD: seq<Event> := [Authorized(0, 1, 2, Grant(None, D2)), Released(0, 0)]

  function MainWith(registry: map<Pair, Entry>, checks: seq<Check>, nextPort: nat): Main {
    Main(map[D2 := 2, D3 := 2], registry, checks, map[], {}, nextPort, 0, map[])
  }

  const HOSTED: Sys := Sys(MainWith(map[], [], 0), Ends(map[], map[], [], map[], map[], 0), map[], map[], map[], [])

  const CALLED: Sys := Sys(
    MainWith(map[], [], 0), Ends(map[], map[], [], map[], map[At(1, D2) := [0]], 1),
    map[], map[1 := [ChannelRequest(D2, None)]], map[], [])

  const CHECKING: Sys := Sys(
    MainWith(map[], [Check(1, D2, None, Some(2), "")], 0), Ends(map[], map[], [], map[], map[At(1, D2) := [0]], 1),
    map[], map[1 := []], map[], [])

  const GRANTED: Sys := Sys(
    MainWith(map[FIRST := Entry(0, {Grant(None, D2)})], [], 1), Ends(map[], map[], [], map[], map[At(1, D2) := [0]], 1),
    map[2 := [ChannelOpen(1, None, D2, 0)], 1 := [ChannelGrant(D2, 2, Some(0))]], map[1 := []], map[], [OLD[0]])

  const OPENED: Sys := Sys(
    MainWith(map[FIRST := Entry(0, {Grant(None, D2)})], [], 1),
    Ends(map[BACK := 0], map[BACK := 0], [CALLEE], map[], map[At(1, D2) := [0]], 1),
    map[2 := [], 1 := [ChannelGrant(D2, 2, Some(0))]], map[1 := []], map[], [OLD[0]])

  const SENT: Sys := Sys(
    MainWith(map[FIRST := Entry(0, {Grant(None, D2)})], [], 1),
    Ends(map[BACK := 0, FIRST := 1], map[BACK := 0], [CALLEE, CALLER], map[At(1, D2) := 2], map[], 1),
    map[2 := [], 1 := []], map[1 := []], map[0 := [D2]], OLD)

  const STALE: Sys := Sys(
    MainWith(map[FIRST := Entry(0, {Grant(None, D2)})], [], 1),
    Ends(map[BACK := 0, FIRST := 1], map[BACK := 0], [CALLEE, CALLER], map[At(1, D2) := 2], map[], 1),
    map[2 := [], 1 := []], map[1 := [], 2 := [SelfInvalidate]], map[0 := [D2]], OLD)

  const DROPPED: Sys := Sys(
    MainWith(map[], [], 1),
    Ends(map[BACK := 0, FIRST := 1], map[BACK := 0], [CALLEE, CALLER], map[At(1, D2) := 2], map[], 1),
    map[2 := [], 1 := [Invalidate(2, None)]], map[1 := [], 2 := []], map[0 := [D2]], OLD)

  const CLOSED: Sys := Sys(
    MainWith(map[], [], 1),
    Ends(map[BACK := 0], map[BACK := 0], [CALLEE, CALLER.(closed := true)], map[At(1, D2) := 2], map[], 1),
    map[2 := [], 1 := []], map[1 := [], 2 := []], map[0 := [D2]], OLD)

  const CALLED_AGAIN: Sys := Sys(
    MainWith(map[], [], 1),
    Ends(map[BACK := 0], map[BACK := 0], [CALLEE, CALLER.(closed := true)], map[At(1, D2) := 2], map[At(1, D3) := [1]], 2),
    map[2 := [], 1 := []], map[1 := [ChannelRequest(D3, None)], 2 := []], map[0 := [D2]], OLD)

  const CHECKING_AGAIN: Sys := Sys(
    MainWith(map[], [Check(1, D3, None, Some(2), "")], 1),
    Ends(map[BACK := 0], map[BACK := 0], [CALLEE, CALLER.(closed := true)], map[At(1, D2) := 2], map[At(1, D3) := [1]], 2),
    map[2 := [], 1 := []], map[1 := [], 2 := []], map[0 := [D2]], OLD)

  const GRANTED_AGAIN: Sys := Sys(
    MainWith(map[FIRST := Entry(1, {Grant(None, D3)})], [], 2),
    Ends(map[BACK := 0], map[BACK := 0], [CALLEE, CALLER.(closed := true)], map[At(1, D2) := 2], map[At(1, D3) := [1]], 2),
    map[2 := [ChannelOpen(1, None, D3, 1)], 1 := [ChannelGrant(D3, 2, Some(1))]], map[1 := [], 2 := []], map[0 := [D2]],
    OLD + [Authorized(1, 1, 2, Grant(None, D3))])

  const OPENED_AGAIN: Sys := Sys(
    MainWith(map[FIRST := Entry(1, {Grant(None, D3)})], [], 2),
    Ends(map[BACK := 2], map[BACK := 2], [CALLEE, CALLER.(closed := true), NEW_CALLEE], map[At(1, D2) := 2],
         map[At(1, D3) := [1]], 2),
    map[2 := [], 1 := [ChannelGrant(D3, 2, Some(1))]], map[1 := [], 2 := []], map[0 := [D2]],
    OLD + [Authorized(1, 1, 2, Grant(None, D3))])

  const SENT_AGAIN: Sys := Sys(
    MainWith(map[FIRST := Entry(1, {Grant(None, D3)})], [], 2),
    Ends(map[BACK := 2, FIRST := 3], map[BACK := 2], [CALLEE, CALLER.(closed := true), NEW_CALLEE, NEW_CALLER],
         map[At(1, D2) := 2, At(1, D3) := 2], map[], 2),
    map[2 := [], 1 := []], map[1 := [], 2 := []], map[0 := [D2], 1 := [D3]],
    OLD + [Authorized(1, 1, 2, Grant(None, D3)), Released(1, 1)])

  const SERVED: Sys := SENT_AGAIN.(wire := map[0 := [D2], 1 := []], log := SENT_AGAIN.log + [Served(1, 2, D3)])

  /** Some run ends in `s`. */
  ghost predicate Reachable(s: Sys) { exists ss, steps :: IsRun(ss, steps) && ss[|steps|] == s }

  lemma {:induction false} ReachNext(s: Sys, step: Step, s': Sys)
    requires Reachable(s) && Follows(s, step, s')
    ensures Reachable(s')
  {
    var ss, steps :| IsRun(ss, steps) && ss[|steps|] == s;
    var ss', steps' := ss + [s'], steps + [step];
    forall i | 0 <= i < |steps'| ensures Follows(ss'[i], steps'[i], ss'[i + 1]) {
      if i < |steps| { assert Follows(ss[i], steps[i], ss[i + 1]); }
    }
    assert IsRun(ss', steps') && ss'[|steps'|] == s';
  }

  lemma {:induction false} Host()
    ensures Reachable(HOSTED)
  {
    assert IsRun([Start()], []);
    var s := Next(Start(), OnlineStep(D2, 2));
    ReachNext(Start(), OnlineStep(D2, 2), s);
    ReachNext(s, OnlineStep(D3, 2), HOSTED);
  }

  lemma {:induction false} Request()
    requires Reachable(HOSTED)
    ensures Reachable(CHECKING)
  {
    PushFirst(HOSTED.outbox, 1, ChannelRequest(D2, None));
    ReachNext(HOSTED, CallStep(1, D2, None), CALLED);
    ReachNext(CALLED, MainStep(1, false, ""), CHECKING);
  }

  lemma {:induction false} GrantedState()
    ensures Authenticated(CHECKING, 0, true, "") == GRANTED
  {
    assert CHECKING.main.checks[..0] + CHECKING.main.checks[1..] == [];
    var open := ChannelOpen(1, None, D2, 0);
    PushFirst(CHECKING.inbox, 2, open);
    PushFirst(map[2 := [open]], 1, ChannelGrant(D2, 2, Some(0)));
  }

  lemma {:induction false} SentOne(c: Chan, device: Device, id: nat)
    requires !c.closed && c.allowed.None?
    ensures Sent(c, device, [id]) == ([device], [Released(id, c.port)])
  {
    assert Sent(c, device, [id][..0]) == ([], []);
    var none: seq<Event>, empty: seq<Device> := [], [];
    assert none + [Released(id, c.port)] == [Released(id, c.port)] && empty + [device] == [device];
  }

  /** Handling the only message, an Open. */
  lemma {:induction false} OpenReached(s: Sys, s': Sys, w: Worker, a: Worker, k: Key, d: Device, p: nat)
    requires Reachable(s) && Sound(s.ends) && w in s.inbox && s.inbox[w] == [ChannelOpen(a, k, d, p)]
    requires s' == s.(inbox := s.inbox[w := []], ends := Open(s.ends, w, a, d, p))
    ensures Reachable(s')
  {
    assert s.inbox[w][1..] == [];
    ReachNext(s, WorkerStep(w), s');
  }

  /** Handling the only message, a Grant with a port, with one call waiting and no channel. */
  lemma {:induction false} GrantReached(s: Sys, s': Sys, w: Worker, d: Device, b: Worker, p: nat, id: nat)
    requires Reachable(s) && Sound(s.ends) && w in s.inbox && s.inbox[w] == [ChannelGrant(d, b, Some(p))]
    requires Pair(w, b) !in s.ends.slots && At(w, d) in s.ends.waiting && s.ends.waiting[At(w, d)] == [id]
    requires s' == Sys(
      s.main,
      Ends(s.ends.slots[Pair(w, b) := |s.ends.chans|], s.ends.lastOpen, s.ends.chans + [Chan(w, b, p, None, false)],
           s.ends.deviceWorker[At(w, d) := b], s.ends.waiting - {At(w, d)}, s.ends.calls),
      s.inbox[w := []], s.outbox, s.wire[p := Queue(s.wire, p) + [d]], s.log + [Released(id, p)])
    ensures Reachable(s')
  {
    assert s.inbox[w][1..] == [];
    SentOne(Chan(w, b, p, None, false), d, id);
    ReachNext(s, WorkerStep(w), s');
  }

  lemma {:induction false} Grants()
    requires Reachable(CHECKING)
    ensures Reachable(GRANTED)
  {
    GrantedState();
    ReachNext(CHECKING, AuthStep(0, true, ""), GRANTED);
  }

  lemma {:induction false} Opens()
    requires Reachable(GRANTED)
    ensures Reachable(OPENED)
  {
    OpenReached(GRANTED, OPENED, 2, 1, None, D2, 0);
  }

  lemma {:induction false} Send()
    requires Reachable(OPENED)
    ensures Reachable(SENT)
  {
    assert [OLD[0]] + [Released(0, 0)] == OLD && [CALLEE] + [CALLER] == [CALLEE, CALLER];
    assert OPENED.ends.waiting - {At(1, D2)} == map[];
    assert Queue(OPENED.wire, 0) + [D2] == [D2];
    GrantReached(OPENED, SENT, 1, D2, 2, 0, 0);
  }

  lemma {:induction false} StaleState()
    ensures Next(SENT, SelfInvalidateStep(2)) == STALE
  {
    PushFirst(SENT.outbox, 2, SelfInvalidate);
  }

  lemma {:induction false} DroppedState()
    ensures MainReceives(STALE, 2, false, "") == DROPPED
  {
    var s := STALE.(outbox := map[1 := [], 2 := []]);
    assert STALE.outbox[2][1..] == [];
    assert STALE.outbox[2 := STALE.outbox[2][1..]] == s.outbox;
    DroppedRegistry(STALE.main.registry);
    DroppedInbox(s.inbox, STALE.main.registry);
  }

  lemma {:induction false} DroppedRegistry(registry: map<Pair, Entry>)
    requires registry.Keys == {FIRST}
    ensures (map p | p in registry && !Involves(p, 2) :: registry[p]) == map[]
  {
    assert FIRST in registry && Involves(FIRST, 2);
  }

  lemma {:induction false} DroppedInbox(inbox: Inbox, registry: map<Pair, Entry>)
    requires registry.Keys == {FIRST} && inbox == map[2 := [], 1 := []]
    ensures (map o | o in inbox.Keys + Parties(registry) :: Queue(inbox, o) + Invalidations(registry, 2, o)) ==
      map[2 := [], 1 := [Invalidate(2, None)]]
  {
    assert FIRST in registry && Parties(registry) == {1, 2};
    var none: seq<ToWorker> := [];
    assert none + [Invalidate(2, None)] == [Invalidate(2, None)] && none + none == none;
    assert Invalidations(registry, 2, 1) == [Invalidate(2, None)];
    assert Invalidations(registry, 2, 2) == [];
  }

  lemma {:induction false} ClosedState()
    ensures WorkerReceives(DROPPED, 1) == CLOSED
  {
  }

  lemma {:induction false} Drop()
    requires Reachable(SENT)
    ensures Reachable(DROPPED)
  {
    StaleState();
    ReachNext(SENT, SelfInvalidateStep(2), STALE);
    DroppedState();
    ReachNext(STALE, MainStep(2, false, ""), DROPPED);
  }

  lemma {:induction false} CloseEnd()
    requires Reachable(DROPPED)
    ensures Reachable(CLOSED)
  {
    ClosedState();
    ReachNext(DROPPED, WorkerStep(1), CLOSED);
  }

  lemma {:induction false} CalledAgainState()
    ensures CallDevice(CLOSED, 1, D3, None) == CALLED_AGAIN
  {
    PushFirst(CLOSED.outbox, 1, ChannelRequest(D3, None));
  }

  lemma {:induction false} CheckingAgainState()
    ensures MainReceives(CALLED_AGAIN, 1, false, "") == CHECKING_AGAIN
  {
  }

  lemma {:induction false} GrantedAgainState()
    ensures Authenticated(CHECKING_AGAIN, 0, true, "") == GRANTED_AGAIN
  {
    assert CHECKING_AGAIN.main.checks[..0] + CHECKING_AGAIN.main.checks[1..] == [];
    var open := ChannelOpen(1, None, D3, 1);
    PushFirst(CHECKING_AGAIN.inbox, 2, open);
    var inbox := CHECKING_AGAIN.inbox[2 := [open]];
    PushFirst(inbox, 1, ChannelGrant(D3, 2, Some(1)));
    assert inbox[1 := [ChannelGrant(D3, 2, Some(1))]] == GRANTED_AGAIN.inbox;
    assert map[][FIRST := Entry(1, {Grant(None, D3)})] == GRANTED_AGAIN.main.registry;
  }

  lemma {:induction false} RequestAgain()
    requires Reachable(CLOSED)
    ensures Reachable(CHECKING_AGAIN)
  {
    CalledAgainState();
    ReachNext(CLOSED, CallStep(1, D3, None), CALLED_AGAIN);
    CheckingAgainState();
    ReachNext(CALLED_AGAIN, MainStep(1, false, ""), CHECKING_AGAIN);
  }

  lemma {:induction false} GrantAgain()
    requires Reachable(CHECKING_AGAIN)
    ensures Reachable(GRANTED_AGAIN)
  {
    GrantedAgainState();
    ReachNext(CHECKING_AGAIN, AuthStep(0, true, ""), GRANTED_AGAIN);
  }

  lemma {:induction false} OpenAgain()
    requires Reachable(GRANTED_AGAIN)
    ensures Reachable(OPENED_AGAIN)
  {
    assert GRANTED_AGAIN.ends.chans + [NEW_CALLEE] == OPENED_AGAIN.ends.chans;
    OpenReached(GRANTED_AGAIN, OPENED_AGAIN, 2, 1, None, D3, 1);
  }

  lemma {:induction false} SendAgain()
    requires Reachable(OPENED_AGAIN)
    ensures Reachable(SENT_AGAIN)
  {
    assert OPENED_AGAIN.log + [Released(1, 1)] == SENT_AGAIN.log;
    assert OPENED_AGAIN.ends.chans + [NEW_CALLER] == SENT_AGAIN.ends.chans;
    assert OPENED_AGAIN.ends.waiting - {At(1, D3)} == map[];
    assert Queue(OPENED_AGAIN.wire, 1) + [D3] == [D3];
    GrantReached(OPENED_AGAIN, SENT_AGAIN, 1, D3, 2, 1, 1);
  }

  lemma {:induction false} ServedState()
    ensures Dispatch(SENT_AGAIN, SENT_AGAIN.ends.chans[2]) == SERVED
  {
  }

  lemma {:induction false} ServeAgain()
    requires Reachable(SENT_AGAIN)
    ensures Reachable(SERVED)
  {
    ServedState();
    ReachNext(SENT_AGAIN, DispatchStep(2), SERVED);
  }

  lemma {:induction false} FastAgain()
    ensures Sound(SERVED.ends) && FastPath(SERVED.ends, 1, D2) == Some(NEW_CALLER)
    ensures SERVED.ends.chans[2] == NEW_CALLEE
  {
  }

  lemma {:induction false} AllServed()
    ensures Reachable(SERVED) && Released(0, 0) in SERVED.log
  {
    Host();
    Request();
    Grants();
    Opens();
    Send();
    Drop();
    CloseEnd();
    RequestAgain();
    GrantAgain();
    OpenAgain();
    SendAgain();
    ServeAgain();
    assert SERVED.log[1] == Released(0, 0);
  }

  /** Calling from any state in which a call on the fast path meets an end that does not allow its device. */
  lemma {:induction false} RefusedNext(s: Sys, w: Worker, d: Device, c: nat) returns (s2: Sys)
    requires Reachable(s) && Sound(s.ends) && c < |s.ends.chans|
    requires var fast, ch := FastPath(s.ends, w, d), s.ends.chans[c];
      && fast.Some? && fast.value.allowed.None? && ch.port == fast.value.port
      && !ch.closed && ch.allowed.Some? && Queue(s.wire, ch.port) == [] && d !in ch.allowed.value
    ensures Reachable(s2) && s.log <= s2.log && Refused(s.ends.chans[c].port, s.ends.chans[c].owner, d) in s2.log
  {
    var s1 := CallDevice(s, w, d, None);
    ReachNext(s, CallStep(w, d, None), s1);
    FastCallRefusedIff(s, s1, w, d, None, c);
    s2 := Next(s1, DispatchStep(c));
    ReachNext(s1, DispatchStep(c), s2);
    assert s2.log[|s2.log| - 1] in s2.log;
  }

  /** In some run an authorized device is called, its channel closed, another opened for a second device, and its next call refused. */
  lemma {:induction false} ReopenedRunRefuses() returns (s: Sys)
    ensures Reachable(s) && Refused(1, 2, D2) in s.log && Released(0, 0) in s.log
  {
    AllServed();
    FastAgain();
    s := RefusedNext(SERVED, 1, D2, 2);
  }
}
