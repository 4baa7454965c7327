/**
 Why completeness needs one calling direction: `peerChannels` has one slot per other worker,
 shared by both roles (lib/device-manager.js:280, 406).  A worker that is granted a channel to
 a worker that already calls it keeps its callee end in the slot, and its calls go out on that
 end, whose other side has no handler.
 */
module PeerTwoWay {
  import opened Wrappers
  import opened PeerBrokering
  import opened PeerCompleteness
  import opened PeerResults

  // ----- exactly when a grant misdirects calls -----

  lemma {:induction false} SentMisdirected(c: Chan, device: Device, ids: seq<nat>)
    ensures (exists ev :: ev in Sent(c, device, ids).1 && ev.Misdirected?) <==> !c.closed && c.allowed.Some? && ids != []
  {
    if ids != [] {
      SentMisdirected(c, device, ids[..|ids| - 1]);
      var (_, before) := Sent(c, device, ids[..|ids| - 1]);
      var (_, es) := Sent(c, device, ids);
      assert forall ev :: ev in es ==> ev in before || ev == es[|es| - 1];
      assert es[|es| - 1] in es;
    }
  }

  /** `w`'s slot for `b` holds a callee end: it serves calls from `b`. */
  predicate Serves(e: Ends, w: Worker, b: Worker)
    requires Pair(w, b) in e.slots ==> e.slots[Pair(w, b)] < |e.chans|
  {
    Pair(w, b) in e.slots && !e.chans[e.slots[Pair(w, b)]].closed && e.chans[e.slots[Pair(w, b)]].allowed.Some?
  }

  /** Handling a grant sends calls to an end without a handler exactly if calls wait and `w` serves `b`. */
  lemma {:induction false} GrantMisdirectsIffServing(s: Sys, w: Worker, d: Device, b: Worker, p: Option<nat>)
    requires Sound(s.ends)
    ensures var s' := WorkerHandles(s, w, ChannelGrant(d, b, p));
      (exists ev :: ev in s'.log[|s.log|..] && ev.Misdirected?) <==>
      At(w, d) in s.ends.waiting && s.ends.waiting[At(w, d)] != [] && Serves(s.ends, w, b)
  {
    var e := Attach(s.ends, w, d, b, p);
    var s' := WorkerHandles(s, w, ChannelGrant(d, b, p));
    if At(w, d) in s.ends.waiting {
      var ids := s.ends.waiting[At(w, d)];
      if Pair(w, b) in e.slots {
        var c := e.chans[e.slots[Pair(w, b)]];
        SentMisdirected(c, d, ids);
        assert s'.log[|s.log|..] == Sent(c, d, ids).1;
      }
    }
  }

  /** A call that takes the fast path is misdirected exactly if `w` serves the worker its device is mapped to. */
  lemma {:induction false} CallMisdirectsIffServing(s: Sys, w: Worker, d: Device, k: Key)
    requires Sound(s.ends)
    ensures Misdirected(s.ends.calls) in CallDevice(s, w, d, k).log[|s.log|..] <==>
      At(w, d) in s.ends.deviceWorker && Serves(s.ends, w, s.ends.deviceWorker[At(w, d)])
    ensures forall ev :: ev in CallDevice(s, w, d, k).log[|s.log|..] && ev.Misdirected? ==> ev == Misdirected(s.ends.calls)
  {
    var s' := CallDevice(s, w, d, k);
    var fast := FastPath(s.ends, w, d);
    if fast.Some? {
      OneSent(fast.value, d, s.ends.calls);
      assert s'.log[|s.log|..] == Sent(fast.value, d, [s.ends.calls]).1;
    } else {
      assert s'.log[|s.log|..] == [];
    }
  }

  lemma {:induction false} OneSent(c: Chan, device: Device, id: nat)
    ensures Sent(c, device, [id]).1 ==
      [if c.closed then Gone(id) else if c.allowed.Some? then Misdirected(id) else Released(id, c.port)]
  {
    assert Sent(c, device, [id][..0]) == ([], []);
  }

  // ----- every step, and every run -----

  ghost predicate AnyMisdirected(es: seq<Event>) { exists ev :: ev in es && ev.Misdirected? }

  /** A step that sends a call while the caller serves the worker it sends it to. */
  ghost predicate SendsWhileServing(s: Sys, step: Step) {
    Sound(s.ends) &&
    match step
    case CallStep(w, d, _) => At(w, d) in s.ends.deviceWorker && Serves(s.ends, w, s.ends.deviceWorker[At(w, d)])
    case WorkerStep(w) =>
      && Queue(s.inbox, w) != [] && s.inbox[w][0].ChannelGrant?
      && At(w, s.inbox[w][0].device) in s.ends.waiting && s.ends.waiting[At(w, s.inbox[w][0].device)] != []
      && Serves(s.ends, w, s.inbox[w][0].target)
    case _ => false
  }

  lemma {:induction false} CallAdds(s: Sys, w: Worker, d: Device, k: Key) returns (es: seq<Event>)
    requires Sound(s.ends)
    ensures CallDevice(s, w, d, k).log == s.log + es && (AnyMisdirected(es) <==> SendsWhileServing(s, CallStep(w, d, k)))
  {
    es := CallDevice(s, w, d, k).log[|s.log|..];
    CallMisdirectsIffServing(s, w, d, k);
  }

  lemma {:induction false} FlushGrows(s: Sys, w: Worker, device: Device, target: Option<Worker>, code: string)
    requires Sound(s.ends)
    ensures s.log <= Flush(s, w, device, target, code).log
    ensures target.None? ==> !AnyMisdirected(Flush(s, w, device, target, code).log[|s.log|..])
  {
  }

  lemma {:induction false} HandlesAdds(s: Sys, w: Worker, m: ToWorker) returns (es: seq<Event>)
    requires Sound(s.ends)
    ensures WorkerHandles(s, w, m).log == s.log + es
    ensures AnyMisdirected(es) <==>
      m.ChannelGrant? && At(w, m.device) in s.ends.waiting && s.ends.waiting[At(w, m.device)] != [] && Serves(s.ends, w, m.target)
  {
    es := WorkerHandles(s, w, m).log[|s.log|..];
    match m
    case ChannelGrant(d, t, p) =>
      FlushGrows(s.(ends := Attach(s.ends, w, d, t, p)), w, d, Some(t), "");
      GrantMisdirectsIffServing(s, w, d, t, p);
    case ChannelDeny(d, code) => FlushGrows(s, w, d, None, code);
    case _ =>
  }

  lemma {:induction false} WorkerAdds(s: Sys, w: Worker) returns (es: seq<Event>)
    requires Sound(s.ends)
    ensures WorkerReceives(s, w).log == s.log + es && (AnyMisdirected(es) <==> SendsWhileServing(s, WorkerStep(w)))
  {
    if Queue(s.inbox, w) == [] {
      es := [];
    } else {
      es := HandlesAdds(s.(inbox := s.inbox[w := s.inbox[w][1..]]), w, s.inbox[w][0]);
    }
  }

  lemma {:induction false} OtherAdds(s: Sys, step: Step) returns (es: seq<Event>)
    requires Sound(s.ends) && !step.CallStep? && !step.WorkerStep?
    ensures Next(s, step).log == s.log + es && !AnyMisdirected(es)
  {
    if step.AuthStep? && step.i < |s.main.checks| {
      es := AuthAdds(s, step.i, step.ok, step.code);
    } else {
      es := Next(s, step).log[|s.log|..];
    }
  }

  lemma {:induction false} AuthAdds(s: Sys, i: nat, ok: bool, code: string) returns (es: seq<Event>)
    requires i < |s.main.checks|
    ensures Authenticated(s, i, ok, code).log == s.log + es && !AnyMisdirected(es)
  {
    es := Authenticated(s, i, ok, code).log[|s.log|..];
  }

  lemma {:induction false} StepAdds(s: Sys, step: Step) returns (es: seq<Event>)
    requires Sound(s.ends)
    ensures Next(s, step).log == s.log + es && (AnyMisdirected(es) <==> SendsWhileServing(s, step))
  {
    if step.CallStep? {
      es := CallAdds(s, step.w, step.device, step.key);
    } else if step.WorkerStep? {
      es := WorkerAdds(s, step.w);
    } else {
      es := OtherAdds(s, step);
    }
  }

  lemma AnyConcat(es: seq<Event>, fs: seq<Event>)
    ensures AnyMisdirected(es + fs) <==> AnyMisdirected(es) || AnyMisdirected(fs)
  {
  }

  /** In every run, a call is misdirected exactly if some call was sent while its worker served the one it sent it to. */
  lemma {:induction false} MisdirectedIffServing(ss: seq<Sys>, steps: seq<Step>)
    requires IsRun(ss, steps)
    ensures AnyMisdirected(ss[|steps|].log) <==> exists i :: 0 <= i < |steps| && SendsWhileServing(ss[i], steps[i])
    decreases |steps|
  {
    if steps != [] {
      var n := |steps| - 1;
      assert IsRun(ss[..n + 1], steps[..n]);
      MisdirectedIffServing(ss[..n + 1], steps[..n]);
      assert Follows(ss[n], steps[n], ss[n + 1]);
      var es := StepAdds(ss[n], steps[n]);
      AnyConcat(ss[n].log, es);
      assert ss[..n + 1][n] == ss[n];
      if i :| 0 <= i < |steps| && SendsWhileServing(ss[i], steps[i]) && i != n {
        assert SendsWhileServing(ss[..n + 1][i], steps[..n][i]);
      }
      if i :| 0 <= i < n && SendsWhileServing(ss[..n + 1][i], steps[..n][i]) {
        assert SendsWhileServing(ss[i], steps[i]);
      }
    }
  }

  // ----- a run that does -----

  const D1: Device := "d1"
  const D2: Device := "d2"

  const HOSTED: Sys := Start().(main := Start().main.(deviceMap := map[D1 := 1, D2 := 2]))

  const CALLED: Sys := HOSTED.(
    ends := HOSTED.ends.(calls := 1, waiting := map[At(1, D2) := [0]]),
    outbox := map[1 := [ChannelRequest(D2, None)]])

  const CHECKING: Sys := CALLED.(
    outbox := map[1 := []],
    main := CALLED.main.(checks := [Check(1, D2, None, Some(2), "")]))

  const GRANTED: Sys := CHECKING.(
    main := CHECKING.main.(checks := [], nextPort := 1, registry := map[Pair(1, 2) := Entry(0, {Grant(None, D2)})]),
    inbox := map[2 := [ChannelOpen(1, None, D2, 0)], 1 := [ChannelGrant(D2, 2, Some(0))]],
    log := [Authorized(0, 1, 2, Grant(None, D2))])

  const OPENED: Sys := GRANTED.(
    inbox := map[2 := [], 1 := [ChannelGrant(D2, 2, Some(0))]],
    ends := GRANTED.ends.(chans := [Chan(2, 1, 0, Some({D2}), false)],
                          slots := map[Pair(2, 1) := 0], lastOpen := map[Pair(2, 1) := 0]))

  const CALLED_BACK: Sys := OPENED.(
    ends := OPENED.ends.(calls := 2, waiting := OPENED.ends.waiting[At(2, D1) := [1]]),
    outbox := map[1 := [], 2 := [ChannelRequest(D1, None)]])

  const CHECKING_BACK: Sys := CALLED_BACK.(
    outbox := map[1 := [], 2 := []],
    main := CALLED_BACK.main.(checks := [Check(2, D1, None, Some(1), "")]))

  const GRANTED_BACK: Sys := CHECKING_BACK.(
    main := CHECKING_BACK.main.(checks := [], nextPort := 2,
      registry := CHECKING_BACK.main.registry[Pair(2, 1) := Entry(1, {Grant(None, D1)})]),
    inbox := map[2 := [ChannelGrant(D1, 1, Some(1))], 1 := [ChannelGrant(D2, 2, Some(0)), ChannelOpen(2, None, D1, 1)]],
    log := CHECKING_BACK.log + [Authorized(1, 2, 1, Grant(None, D1))])

  ghost predicate EndsIn(ss: seq<Sys>, steps: seq<Step>, s: Sys) {
    IsRun(ss, steps) && ss[|steps|] == s && forall i :: 0 <= i < |steps| ==> Calm(steps[i])
  }

  /** Some run without invalidation ends in `s`. */
  ghost predicate Reachable(s: Sys) { exists ss, steps :: EndsIn(ss, steps, s) }

  lemma {:induction false} ReachNext(s: Sys, step: Step, s': Sys)
    requires Reachable(s) && Calm(step) && Follows(s, step, s')
    ensures Reachable(s')
  {
    var ss, steps :| EndsIn(ss, steps, s);
    var ss', steps' := ss + [s'], steps + [step];
    forall i | 0 <= i < |steps'| ensures Follows(ss'[i], steps'[i], ss'[i + 1]) {
      if i < |steps| { assert Follows(ss[i], steps[i], ss[i + 1]); }
    }
    assert EndsIn(ss', steps', s');
  }

  lemma {:induction false} Hosted()
    ensures Reachable(HOSTED)
  {
    assert EndsIn([Start()], [], Start());
    var s := Next(Start(), OnlineStep(D1, 1));
    ReachNext(Start(), OnlineStep(D1, 1), s);
    ReachNext(s, OnlineStep(D2, 2), HOSTED);
  }

  lemma {:induction false} Called()
    requires Reachable(HOSTED)
    ensures Reachable(CALLED)
  {
    PushFirst(HOSTED.outbox, 1, ChannelRequest(D2, None));
    ReachNext(HOSTED, CallStep(1, D2, None), CALLED);
  }

  lemma {:induction false} CheckedState()
    ensures MainReceives(CALLED, 1, false, "") == CHECKING
  {
  }

  lemma {:induction false} Checked()
    requires Reachable(CALLED)
    ensures Reachable(CHECKING)
  {
    CheckedState();
    ReachNext(CALLED, MainStep(1, false, ""), CHECKING);
  }

  lemma {:induction false} GrantedState()
    ensures Authenticated(CHECKING, 0, true, "") == GRANTED
  {
    assert CHECKING.main.checks[..0] + CHECKING.main.checks[1..] == [];
    var open := ChannelOpen(1, None, D2, 0);
    PushFirst(CHECKING.inbox, 2, open);
    PushFirst(map[2 := [open]], 1, ChannelGrant(D2, 2, Some(0)));
  }

  lemma {:induction false} Granted()
    requires Reachable(CHECKING)
    ensures Reachable(GRANTED)
  {
    GrantedState();
    ReachNext(CHECKING, AuthStep(0, true, ""), GRANTED);
  }

  lemma {:induction false} OpenedState()
    ensures WorkerReceives(GRANTED, 2) == OPENED
  {
  }

  lemma {:induction false} Opened()
    requires Reachable(GRANTED)
    ensures Reachable(OPENED)
  {
    OpenedState();
    ReachNext(GRANTED, WorkerStep(2), OPENED);
  }

  lemma {:induction false} CalledBack()
    requires Reachable(OPENED)
    ensures Reachable(CALLED_BACK)
  {
    PushFirst(OPENED.outbox, 2, ChannelRequest(D1, None));
    ReachNext(OPENED, CallStep(2, D1, None), CALLED_BACK);
  }

  lemma {:induction false} CheckedBackState()
    ensures MainReceives(CALLED_BACK, 2, false, "") == CHECKING_BACK
  {
  }

  lemma {:induction false} CheckedBack()
    requires Reachable(CALLED_BACK)
    ensures Reachable(CHECKING_BACK)
  {
    CheckedBackState();
    ReachNext(CALLED_BACK, MainStep(2, false, ""), CHECKING_BACK);
  }

  lemma {:induction false} GrantedBackState()
    ensures Authenticated(CHECKING_BACK, 0, true, "") == GRANTED_BACK
  {
    assert CHECKING_BACK.main.checks[..0] + CHECKING_BACK.main.checks[1..] == [];
    var open, grant := ChannelOpen(2, None, D1, 1), ChannelGrant(D2, 2, Some(0));
    var inbox := map[2 := [], 1 := [grant, open]];
    assert [grant] + [open] == [grant, open];
    assert Push(OPENED.inbox, 1, open) == inbox;
    PushFirst(inbox, 2, ChannelGrant(D1, 1, Some(1)));
  }

  lemma {:induction false} GrantedBack()
    requires Reachable(CHECKING_BACK)
    ensures Reachable(GRANTED_BACK)
  {
    GrantedBackState();
    ReachNext(CHECKING_BACK, AuthStep(0, true, ""), GRANTED_BACK);
  }

  lemma {:induction false} Misdirects()
    ensures Misdirected(1) in WorkerReceives(GRANTED_BACK, 2).log
  {
  }

  lemma {:induction false} GrantedCallBack() returns (s: Sys)
    ensures Reachable(s) && s == WorkerReceives(GRANTED_BACK, 2)
  {
    Hosted();
    Called();
    Checked();
    Granted();
    Opened();
    CalledBack();
    CheckedBack();
    GrantedBack();
    s := WorkerReceives(GRANTED_BACK, 2);
    ReachNext(GRANTED_BACK, WorkerStep(2), s);
  }

  /** In some run without invalidation an authorized call is misdirected: two workers call each other. */
  lemma {:induction false} TwoWayRunMisdirects() returns (s: Sys)
    ensures Reachable(s) && Misdirected(1) in s.log
  {
    s := GrantedCallBack();
    Misdirects();
  }

  lemma {:induction false} ServesBack(s: Sys)
    requires s == WorkerReceives(GRANTED_BACK, 2)
    ensures Sound(s.ends) && s.ends.calls == 2
    ensures At(2, D1) in s.ends.deviceWorker && s.ends.deviceWorker[At(2, D1)] == 1 && Serves(s.ends, 2, 1)
  {
  }

  /** The fast path does the same: the next call, with nothing waiting, is misdirected too. */
  lemma {:induction false} FastPathRunMisdirects() returns (s: Sys)
    ensures Reachable(s) && Misdirected(2) in s.log
  {
    var s1 := GrantedCallBack();
    ServesBack(s1);
    s := CallDevice(s1, 2, D1, None);
    ReachNext(s1, CallStep(2, D1, None), s);
    CallMisdirectsIffServing(s1, 2, D1, None);
  }
}
