/**
 What stands behind a channel (lib/peer-channel-broker.js:76-150, 206-236), over every run: each
 grant in the registry is an authorization that passed, asked for by a call of that worker with
 that call's key, for the worker that hosted the device; every such authorization is a grant,
 for as long as its channel is open; and a recheck pass asks about all of them.
 */
module PeerGrants {
  import opened Wrappers
  import opened PeerBrokering
  import opened PeerSafety
  import opened PeerResults

  // ----- the registry and the log -----

  /** The grants of each entry are the authorizations logged for its port. */
  ghost predicate Booked(registry: map<Pair, Entry>, log: seq<Event>) {
    forall p, g :: p in registry ==> (g in registry[p].grants <==> Authorized(registry[p].port, p.one, p.other, g) in log)
  }

  ghost predicate PortsMade(nextPort: nat, log: seq<Event>) {
    forall ev :: ev in log && ev.Authorized? ==> ev.port < nextPort
  }

  ghost predicate Ledger(s: Sys) {
    && Booked(s.main.registry, s.log) && PortsMade(s.main.nextPort, s.log)
    && forall p :: p in s.main.registry ==> s.main.registry[p].port < s.main.nextPort
  }

  /** Entries may go; none changes, and nothing is authorized. */
  ghost predicate NoGrant(s: Sys, s': Sys, es: seq<Event>) {
    && s'.log == s.log + es && (forall ev :: ev in es ==> !ev.Authorized?)
    && s'.main.nextPort == s.main.nextPort
    && forall p :: p in s'.main.registry ==> p in s.main.registry && s'.main.registry[p] == s.main.registry[p]
  }

  lemma NoGrantKeeps(s: Sys, s': Sys, es: seq<Event>)
    requires Ledger(s) && NoGrant(s, s', es)
    ensures Ledger(s')
  {
    forall ev: Event | ev.Authorized? ensures ev in s'.log <==> ev in s.log { }
  }

  lemma GrantLogged(s: Sys, s': Sys, device: Device, key: Key, a: Worker, b: Worker)
    requires Ledger(s) && s' == GrantChannel(s, device, key, a, b)
    ensures Ledger(s') && Pair(a, b) in s'.main.registry && Grant(key, device) in s'.main.registry[Pair(a, b)].grants
    ensures s'.log == s.log + [Authorized(s'.main.registry[Pair(a, b)].port, a, b, Grant(key, device))]
  {
    if Pair(a, b) in s.main.registry { GrantOnOpenLogged(s, s', device, key, a, b); } else { GrantNewLogged(s, s', device, key, a, b); }
  }

  lemma GrantOnOpenLogged(s: Sys, s': Sys, device: Device, key: Key, a: Worker, b: Worker)
    requires Ledger(s) && Pair(a, b) in s.main.registry && s' == GrantOnOpen(s, device, key, a, b)
    ensures Ledger(s') && Pair(a, b) in s'.main.registry && Grant(key, device) in s'.main.registry[Pair(a, b)].grants
    ensures s'.log == s.log + [Authorized(s'.main.registry[Pair(a, b)].port, a, b, Grant(key, device))]
  {
    var e := s.main.registry[Pair(a, b)];
    var ev := Authorized(e.port, a, b, Grant(key, device));
    assert s'.main.registry == s.main.registry[Pair(a, b) := e.(grants := e.grants + {Grant(key, device)})];
    BookOne(s.main.registry, s'.main.registry, s.log, ev, Pair(a, b));
  }

  lemma BookOne(registry: map<Pair, Entry>, registry': map<Pair, Entry>, log: seq<Event>, ev: Event, p: Pair)
    requires Booked(registry, log) && p in registry && ev.Authorized? && ev == Authorized(registry[p].port, p.one, p.other, ev.grant)
    requires registry' == registry[p := registry[p].(grants := registry[p].grants + {ev.grant})]
    ensures Booked(registry', log + [ev])
  {
  }

  lemma GrantNewLogged(s: Sys, s': Sys, device: Device, key: Key, a: Worker, b: Worker)
    requires Ledger(s) && Pair(a, b) !in s.main.registry && s' == GrantNew(s, device, key, a, b)
    ensures Ledger(s') && Pair(a, b) in s'.main.registry && Grant(key, device) in s'.main.registry[Pair(a, b)].grants
    ensures s'.log == s.log + [Authorized(s'.main.registry[Pair(a, b)].port, a, b, Grant(key, device))]
  {
    var ev := Authorized(s.main.nextPort, a, b, Grant(key, device));
    BookNew(s.main.registry, s'.main.registry, s.log, ev, Pair(a, b));
  }

  lemma BookNew(registry: map<Pair, Entry>, registry': map<Pair, Entry>, log: seq<Event>, ev: Event, p: Pair)
    requires Booked(registry, log) && p !in registry && ev.Authorized? && ev == Authorized(ev.port, p.one, p.other, ev.grant)
    requires PortsMade(ev.port, log) && registry' == registry[p := Entry(ev.port, {ev.grant})]
    ensures Booked(registry', log + [ev])
  {
  }

  // ----- the steps -----

  lemma {:induction false} SentNoGrant(c: Chan, device: Device, ids: seq<nat>)
    ensures forall ev :: ev in Sent(c, device, ids).1 ==> !ev.Authorized?
  {
    if ids != [] { SentNoGrant(c, device, ids[..|ids| - 1]); }
  }

  lemma {:induction false} FlushNoGrant(s: Sys, w: Worker, device: Device, target: Option<Worker>, code: string) returns (es: seq<Event>)
    requires Sound(s.ends)
    ensures NoGrant(s, Flush(s, w, device, target, code), es)
  {
    es := Flush(s, w, device, target, code).log[|s.log|..];
    if At(w, device) in s.ends.waiting && target.Some? && Pair(w, target.value) in s.ends.slots {
      SentNoGrant(s.ends.chans[s.ends.slots[Pair(w, target.value)]], device, s.ends.waiting[At(w, device)]);
    }
  }

  lemma {:induction false} WorkerNoGrant(s: Sys, w: Worker, m: ToWorker) returns (es: seq<Event>)
    requires Sound(s.ends)
    ensures NoGrant(s, WorkerHandles(s, w, m), es)
  {
    match m
    case ChannelGrant(d, t, p) =>
      PeerBrokering.AttachSound(s.ends, w, d, t, p);
      es := FlushNoGrant(s.(ends := Attach(s.ends, w, d, t, p)), w, d, Some(t), "");
    case ChannelDeny(d, code) => es := FlushNoGrant(s, w, d, None, code);
    case _ => es := WorkerHandles(s, w, m).log[|s.log|..];
  }

  lemma {:induction false} ReceivesNoGrant(s: Sys, w: Worker) returns (es: seq<Event>)
    requires Sound(s.ends)
    ensures NoGrant(s, WorkerReceives(s, w), es)
  {
    if Queue(s.inbox, w) == [] {
      es := [];
    } else {
      es := WorkerNoGrant(s.(inbox := s.inbox[w := s.inbox[w][1..]]), w, s.inbox[w][0]);
    }
  }

  lemma {:induction false} CallNoGrant(s: Sys, w: Worker, d: Device, k: Key) returns (es: seq<Event>)
    requires Sound(s.ends)
    ensures NoGrant(s, CallDevice(s, w, d, k), es)
  {
    es := CallDevice(s, w, d, k).log[|s.log|..];
    if FastPath(s.ends, w, d).Some? { SentNoGrant(FastPath(s.ends, w, d).value, d, [s.ends.calls]); }
  }

  lemma {:induction false} MainNoGrant(s: Sys, w: Worker, limited: bool, missing: string)
    ensures NoGrant(s, MainReceives(s, w, limited, missing), [])
  {
    assert s.log + [] == s.log;
  }

  lemma {:induction false} DenyNoGrant(s: Sys, w: Worker, d: Device, code: string)
    ensures NoGrant(s, Deny(s, w, d, code), [])
  {
    assert s.log + [] == s.log;
  }

  lemma {:induction false} OtherNoGrant(s: Sys, step: Step) returns (es: seq<Event>)
    requires Sound(s.ends) && !step.CallStep? && !step.WorkerStep? && !step.MainStep? && !step.AuthStep?
    ensures NoGrant(s, Next(s, step), es)
  {
    es := Next(s, step).log[|s.log|..];
  }

  /** The authorization of `c` passes in this step. */
  ghost predicate Passes(s: Sys, step: Step, c: Check) {
    step.AuthStep? && step.ok && step.i < |s.main.checks| && s.main.checks[step.i] == c && c.callee.Some?
  }

  ghost predicate AnyPasses(s: Sys, step: Step) { exists c :: Passes(s, step, c) }

  lemma {:induction false} AuthNoGrant(s: Sys, i: nat, ok: bool, code: string)
    requires i < |s.main.checks| && (!ok || s.main.checks[i].callee.None?)
    ensures NoGrant(s, Authenticated(s, i, ok, code), [])
  {
    assert s.log + [] == s.log;
  }

  lemma {:induction false} StepNoGrant(s: Sys, step: Step) returns (es: seq<Event>)
    requires Sound(s.ends) && !AnyPasses(s, step)
    ensures NoGrant(s, Next(s, step), es)
  {
    match step
    case CallStep(w, d, k) => es := CallNoGrant(s, w, d, k);
    case WorkerStep(w) => es := ReceivesNoGrant(s, w);
    case MainStep(w, limited, missing) => es := []; MainNoGrant(s, w, limited, missing);
    case AuthStep(i, ok, code) =>
      es := [];
      if i < |s.main.checks| {
        if ok && s.main.checks[i].callee.Some? { assert Passes(s, step, s.main.checks[i]); }
        AuthNoGrant(s, i, ok, code);
      } else {
        assert s.log + [] == s.log;
      }
    case _ => es := OtherNoGrant(s, step);
  }

  lemma {:induction false} StepGrants(s: Sys, step: Step, c: Check)
    requires Sound(s.ends) && Ledger(s) && Passes(s, step, c)
    ensures var s' := Next(s, step); var p := Pair(c.caller, c.callee.value);
      && Ledger(s') && p in s'.main.registry && Grant(c.key, c.device) in s'.main.registry[p].grants
      && s'.log == s.log + [Authorized(s'.main.registry[p].port, c.caller, c.callee.value, Grant(c.key, c.device))]
  {
    var s1 := s.(main := s.main.(checks := s.main.checks[..step.i] + s.main.checks[step.i + 1..]));
    GrantLogged(s1, Next(s, step), c.device, c.key, c.caller, c.callee.value);
  }

  lemma {:induction false} StepLedger(s: Sys, step: Step)
    requires Sound(s.ends) && Ledger(s)
    ensures Ledger(Next(s, step))
  {
    if c :| Passes(s, step, c) {
      StepGrants(s, step, c);
    } else {
      var es := StepNoGrant(s, step);
      NoGrantKeeps(s, Next(s, step), es);
    }
  }

  lemma {:induction false} EveryLedger(ss: seq<Sys>, steps: seq<Step>)
    requires IsRun(ss, steps)
    ensures Ledger(ss[|steps|])
    decreases |steps|
  {
    if steps != [] {
      var n := |steps| - 1;
      assert IsRun(ss[..n + 1], steps[..n]);
      EveryLedger(ss[..n + 1], steps[..n]);
      assert Follows(ss[n], steps[n], ss[n + 1]);
      StepLedger(ss[n], steps[n]);
    }
  }

  // ----- where requests come from -----

  ghost predicate Called(steps: seq<Step>, w: Worker, d: Device, k: Key) { CallStep(w, d, k) in steps }

  ghost predicate HostedBy(ss: seq<Sys>, d: Device, b: Worker) {
    exists i :: 0 <= i < |ss| && d in ss[i].main.deviceMap && ss[i].main.deviceMap[d] == b
  }

  ghost predicate AskedFor(ss: seq<Sys>, steps: seq<Step>, c: Check) {
    Called(steps, c.caller, c.device, c.key) && (c.callee.Some? ==> HostedBy(ss, c.device, c.callee.value) && c.callee.value != c.caller)
  }

  ghost predicate RequestsCalled(s: Sys, steps: seq<Step>) {
    forall w, m :: m in Queue(s.outbox, w) && m.ChannelRequest? ==> Called(steps, w, m.device, m.key)
  }

  ghost predicate ChecksAsked(s: Sys, ss: seq<Sys>, steps: seq<Step>) { forall c :: c in s.main.checks ==> AskedFor(ss, steps, c) }

  /** What a step does to the requests under way: new ones only from a call. */
  ghost predicate OutboxFrom(s: Sys, s': Sys, step: Step) {
    forall w, m :: m in Queue(s'.outbox, w) && m.ChannelRequest? ==> m in Queue(s.outbox, w) || step == CallStep(w, m.device, m.key)
  }

  lemma {:induction false} CallOutbox(s: Sys, w: Worker, d: Device, k: Key)
    requires Sound(s.ends)
    ensures OutboxFrom(s, CallDevice(s, w, d, k), CallStep(w, d, k)) && CallDevice(s, w, d, k).main == s.main
  {
  }

  lemma {:induction false} FlushOutbox(s: Sys, w: Worker, device: Device, target: Option<Worker>, code: string)
    requires Sound(s.ends)
    ensures Flush(s, w, device, target, code).outbox == s.outbox && Flush(s, w, device, target, code).main == s.main
  {
  }

  lemma {:induction false} WorkerOutbox(s: Sys, w: Worker, m: ToWorker, step: Step)
    requires Sound(s.ends)
    ensures OutboxFrom(s, WorkerHandles(s, w, m), step) && WorkerHandles(s, w, m).main == s.main
  {
    match m
    case ChannelGrant(d, t, p) =>
      PeerBrokering.AttachSound(s.ends, w, d, t, p);
      FlushOutbox(s.(ends := Attach(s.ends, w, d, t, p)), w, d, Some(t), "");
    case ChannelDeny(d, code) => FlushOutbox(s, w, d, None, code);
    case _ =>
  }

  lemma {:induction false} OutboxStep(s: Sys, step: Step)
    requires Sound(s.ends)
    ensures OutboxFrom(s, Next(s, step), step)
  {
    match step
    case CallStep(w, d, k) => CallOutbox(s, w, d, k);
    case WorkerStep(w) =>
      if Queue(s.inbox, w) != [] { WorkerOutbox(s.(inbox := s.inbox[w := s.inbox[w][1..]]), w, s.inbox[w][0], step); }
    case MainStep(w, limited, missing) => MainOutbox(s, w, limited, missing);
    case AuthStep(i, ok, code) => assert Next(s, step).outbox == s.outbox;
    case _ =>
  }

  lemma {:induction false} MainOutbox(s: Sys, w: Worker, limited: bool, missing: string)
    ensures OutboxFrom(s, MainReceives(s, w, limited, missing), MainStep(w, limited, missing))
  {
    if Queue(s.outbox, w) != [] {
      assert MainReceives(s, w, limited, missing).outbox == s.outbox[w := s.outbox[w][1..]];
    }
  }

  /** A check is new only if the main thread handles the request it is for. */
  ghost predicate ChecksFrom(s: Sys, s': Sys, step: Step) {
    forall c :: c in s'.main.checks ==> c in s.main.checks || NewCheck(s, step, c)
  }

  ghost predicate NewCheck(s: Sys, step: Step, c: Check) {
    && step.MainStep? && step.w == c.caller && ChannelRequest(c.device, c.key) in Queue(s.outbox, c.caller)
    && (c.callee.Some? ==> c.device in s.main.deviceMap && c.callee.value == s.main.deviceMap[c.device] != c.caller)
  }

  lemma {:induction false} MainChecks(s: Sys, w: Worker, limited: bool, missing: string)
    ensures ChecksFrom(s, MainReceives(s, w, limited, missing), MainStep(w, limited, missing))
  {
    if Queue(s.outbox, w) != [] { assert s.outbox[w][0] in Queue(s.outbox, w); }
  }

  lemma {:induction false} AuthChecks(s: Sys, i: nat, ok: bool, code: string)
    requires i < |s.main.checks|
    ensures forall c :: c in Authenticated(s, i, ok, code).main.checks ==> c in s.main.checks
  {
    assert Authenticated(s, i, ok, code).main.checks == s.main.checks[..i] + s.main.checks[i + 1..];
  }

  lemma {:induction false} ChecksStep(s: Sys, step: Step)
    requires Sound(s.ends)
    ensures ChecksFrom(s, Next(s, step), step)
  {
    match step
    case CallStep(w, d, k) => CallOutbox(s, w, d, k);
    case WorkerStep(w) =>
      if Queue(s.inbox, w) != [] { WorkerOutbox(s.(inbox := s.inbox[w := s.inbox[w][1..]]), w, s.inbox[w][0], step); }
    case MainStep(w, limited, missing) => MainChecks(s, w, limited, missing);
    case AuthStep(i, ok, code) => if i < |s.main.checks| { AuthChecks(s, i, ok, code); }
    case _ =>
  }

  lemma {:induction false} AskedGrows(ss: seq<Sys>, steps: seq<Step>, n: nat, c: Check)
    requires n < |ss| && n <= |steps| && AskedFor(ss[..n + 1], steps[..n], c)
    ensures AskedFor(ss, steps, c)
  {
    if c.callee.Some? {
      var i :| 0 <= i < n + 1 && c.device in ss[..n + 1][i].main.deviceMap && ss[..n + 1][i].main.deviceMap[c.device] == c.callee.value;
      assert ss[i] == ss[..n + 1][i];
    }
  }

  /** A check that is new has just been asked for. */
  lemma {:induction false} NewlyAsked(ss: seq<Sys>, steps: seq<Step>, n: nat, c: Check)
    requires n < |steps| && n < |ss| && RequestsCalled(ss[n], steps[..n]) && NewCheck(ss[n], steps[n], c)
    ensures AskedFor(ss, steps, c)
  {
    assert Called(steps[..n], c.caller, c.device, c.key);
    if c.callee.Some? { assert c.device in ss[n].main.deviceMap && ss[n].main.deviceMap[c.device] == c.callee.value; }
  }

  lemma RequestsStep(s: Sys, s': Sys, steps: seq<Step>, step: Step)
    requires RequestsCalled(s, steps) && OutboxFrom(s, s', step)
    ensures RequestsCalled(s', steps + [step])
  {
  }

  lemma {:induction false} AskedStep(ss: seq<Sys>, steps: seq<Step>, n: nat)
    requires IsRun(ss, steps) && |steps| == n + 1
    requires RequestsCalled(ss[n], steps[..n]) && ChecksAsked(ss[n], ss[..n + 1], steps[..n])
    ensures RequestsCalled(ss[n + 1], steps) && ChecksAsked(ss[n + 1], ss, steps)
  {
    assert Follows(ss[n], steps[n], ss[n + 1]);
    OutboxStep(ss[n], steps[n]);
    RequestsStep(ss[n], ss[n + 1], steps[..n], steps[n]);
    assert steps == steps[..n] + [steps[n]];
    ChecksStep(ss[n], steps[n]);
    NewChecksAsked(ss, steps, n);
  }

  lemma {:induction false} NewChecksAsked(ss: seq<Sys>, steps: seq<Step>, n: nat)
    requires |steps| == n + 1 && |ss| == n + 2 && ChecksFrom(ss[n], ss[n + 1], steps[n])
    requires RequestsCalled(ss[n], steps[..n]) && ChecksAsked(ss[n], ss[..n + 1], steps[..n])
    ensures ChecksAsked(ss[n + 1], ss, steps)
  {
    forall c | c in ss[n + 1].main.checks ensures AskedFor(ss, steps, c) {
      if c in ss[n].main.checks {
        assert AskedFor(ss[..n + 1], steps[..n], c);
        AskedGrows(ss, steps, n, c);
      } else {
        NewlyAsked(ss, steps, n, c);
      }
    }
  }

  lemma {:induction false} EveryAsked(ss: seq<Sys>, steps: seq<Step>)
    requires IsRun(ss, steps)
    ensures RequestsCalled(ss[|steps|], steps) && ChecksAsked(ss[|steps|], ss, steps)
    decreases |steps|
  {
    if steps != [] {
      var n := |steps| - 1;
      assert IsRun(ss[..n + 1], steps[..n]);
      EveryAsked(ss[..n + 1], steps[..n]);
      AskedStep(ss, steps, n);
    }
  }

  // ----- the results -----

  /** In every run, the grants of a registry entry are exactly the authorizations that have passed for its port. */
  lemma {:induction false} GrantsAreAuthorizations(ss: seq<Sys>, steps: seq<Step>, p: Pair, g: Grant)
    requires IsRun(ss, steps) && p in ss[|steps|].main.registry
    ensures var e := ss[|steps|].main.registry[p];
      g in e.grants <==> Authorized(e.port, p.one, p.other, g) in ss[|steps|].log
  {
    EveryLedger(ss, steps);
  }

  /** In this step of the run, an authorization passed, and it is the one that `ev` logs. */
  ghost predicate PassedAt(ss: seq<Sys>, steps: seq<Step>, n: nat, ev: Event)
    requires |ss| == |steps| + 1 && n < |steps| && ev.Authorized?
  {
    exists code :: Passes(ss[n], steps[n], Check(ev.caller, ev.grant.device, ev.grant.key, Some(ev.callee), code))
  }

  lemma {:induction false} LoggedIn(ss: seq<Sys>, ev: Event, last: nat) returns (n: nat)
    requires last < |ss| && ev in ss[last].log && ev !in ss[0].log
    ensures n < last && ev !in ss[n].log && ev in ss[n + 1].log
  {
    n := last - 1;
    while ev in ss[n].log
      invariant n < last && ev in ss[n + 1].log
      decreases n
    {
      n := n - 1;
    }
  }

  lemma {:induction false} RunPrefix(ss: seq<Sys>, steps: seq<Step>, n: nat)
    requires IsRun(ss, steps) && n < |steps|
    ensures IsRun(ss[..n + 1], steps[..n]) && Follows(ss[n], steps[n], ss[n + 1])
    ensures Ledger(ss[n]) && ChecksAsked(ss[n], ss[..n + 1], steps[..n])
  {
    assert IsRun(ss[..n + 1], steps[..n]);
    EveryLedger(ss[..n + 1], steps[..n]);
    EveryAsked(ss[..n + 1], steps[..n]);
  }

  /**
   In every run, an authorization is logged only in a step in which `userAuth` answered without an
   error, for a device that the caller had called with that very key and that the callee, another
   worker, had hosted.
   */
  lemma {:induction false} AuthorizedOnlyByAuth(ss: seq<Sys>, steps: seq<Step>, ev: Event) returns (n: nat)
    requires IsRun(ss, steps) && ev in ss[|steps|].log && ev.Authorized?
    ensures n < |steps| && PassedAt(ss, steps, n, ev)
    ensures Called(steps[..n], ev.caller, ev.grant.device, ev.grant.key)
    ensures HostedBy(ss[..n + 1], ev.grant.device, ev.callee) && ev.callee != ev.caller
  {
    n := LoggedIn(ss, ev, |steps|);
    RunPrefix(ss, steps, n);
    var c := LoggedBy(ss[n], steps[n], ev);
    assert AskedFor(ss[..n + 1], steps[..n], c);
  }

  lemma {:induction false} LoggedBy(s: Sys, step: Step, ev: Event) returns (c: Check)
    requires Sound(s.ends) && Ledger(s) && ev.Authorized? && ev in Next(s, step).log && ev !in s.log
    ensures Passes(s, step, c) && c == Check(ev.caller, ev.grant.device, ev.grant.key, Some(ev.callee), c.code)
    ensures c in s.main.checks
  {
    if AnyPasses(s, step) {
      c :| Passes(s, step, c);
      StepGrants(s, step, c);
    } else {
      var es := StepNoGrant(s, step);
      assert false;
    }
  }

  /** In every run, an authorization that passes is a grant of its pair's entry from then on, until the entry is removed. */
  lemma {:induction false} PassedIsGranted(ss: seq<Sys>, steps: seq<Step>, step: Step, s': Sys, c: Check)
    requires IsRun(ss, steps) && Follows(ss[|steps|], step, s') && Passes(ss[|steps|], step, c)
    ensures var p := Pair(c.caller, c.callee.value);
      && p in s'.main.registry && Grant(c.key, c.device) in s'.main.registry[p].grants
      && Authorized(s'.main.registry[p].port, c.caller, c.callee.value, Grant(c.key, c.device)) in s'.log
  {
    EveryLedger(ss, steps);
    StepGrants(ss[|steps|], step, c);
  }

  /**
   In every run, a pass that starts with no question out asks exactly about the authorizations that
   have passed for the ports that are open; while questions are out none starts.
   */
  lemma {:induction false} PassAsksAll(ss: seq<Sys>, steps: seq<Step>, s': Sys, r: Recheck)
    requires IsRun(ss, steps) && Follows(ss[|steps|], RecheckStep, s')
    ensures ss[|steps|].main.rechecks != {} ==> s' == ss[|steps|]
    ensures ss[|steps|].main.rechecks == {} ==>
      (r in s'.main.rechecks <==>
        r.pair in s'.main.registry && s'.main.registry[r.pair].port == r.port
        && Authorized(r.port, r.pair.one, r.pair.other, r.grant) in s'.log)
  {
    EveryLedger(ss, steps);
    var s := ss[|steps|];
    assert s'.main.registry == s.main.registry && s'.log == s.log;
    if s.main.rechecks == {} {
      assert s'.main.rechecks == AllGrants(s.main.registry);
      if r in AllGrants(s.main.registry) {
        var p, g :| p in s.main.registry && g in s.main.registry[p].grants && r == Recheck(p, s.main.registry[p].port, g);
      }
      if r.pair in s.main.registry && s.main.registry[r.pair].port == r.port && r.grant in s.main.registry[r.pair].grants {
        assert Recheck(r.pair, s.main.registry[r.pair].port, r.grant) in AllGrants(s.main.registry);
      }
    }
  }

  /** Some grant of the entry is for the device. */
  ghost predicate HasGrant(e: Entry, d: Device) { exists k :: Grant(k, d) in e.grants }

  /** The callee's end of the channel allows the device. */
  ghost predicate EndAllows(s: Sys, c: nat, p: Pair, port: nat, d: Device) {
    && c < |s.ends.chans| && s.ends.chans[c].allowed.Some? && d in s.ends.chans[c].allowed.value
    && s.ends.chans[c].port == port && s.ends.chans[c].peer == p.one && s.ends.chans[c].owner == p.other
  }

  /** The callee has been sent a message that makes its end allow the device. */
  ghost predicate WillAllow(s: Sys, m: ToWorker, p: Pair, port: nat, d: Device) {
    m in Queue(s.inbox, p.other) && (m.ChannelOpen? || m.ChannelAllow?) && m.caller == p.one && m.device == d && m.port == port
  }

  ghost predicate Allows(s: Sys, p: Pair, port: nat, d: Device) {
    (exists c: nat :: EndAllows(s, c, p, port, d)) || (exists m :: WillAllow(s, m, p, port, d))
  }

  lemma {:induction false} AllowedPassed(s: Sys, p: Pair, port: nat, d: Device)
    requires Backed(s.log, s.ends, s.inbox) && Allows(s, p, port, d)
    ensures Passed(s.log, port, p.one, p.other, d)
  {
    if c: nat :| EndAllows(s, c, p, port, d) {
      assert ChanPassed(s.log, s.ends.chans[c]);
    } else {
      var m :| WillAllow(s, m, p, port, d);
      var i :| 0 <= i < |Queue(s.inbox, p.other)| && Queue(s.inbox, p.other)[i] == m;
      assert MessagePassed(s.log, p.other, Queue(s.inbox, p.other)[i]);
    }
  }

  /**
   In every run, each device that a callee's end allows, or will when it handles a message already on
   its way, has a grant in the entry of that channel, if the entry is still there: no device is
   served that a pass would not ask about.
   */
  lemma {:induction false} AllowedIsGranted(ss: seq<Sys>, steps: seq<Step>, p: Pair, d: Device)
    requires IsRun(ss, steps) && p in ss[|steps|].main.registry
    requires Allows(ss[|steps|], p, ss[|steps|].main.registry[p].port, d)
    ensures HasGrant(ss[|steps|].main.registry[p], d)
  {
    RunIsExec(ss, steps);
    EveryRunSafe(steps);
    EveryLedger(ss, steps);
    var s := ss[|steps|];
    var port := s.main.registry[p].port;
    AllowedPassed(s, p, port, d);
    var k :| Authorized(port, p.one, p.other, Grant(k, d)) in s.log;
    assert Grant(k, d) in s.main.registry[p].grants;
  }
}
