/**
 What the main thread tells the workers about channels (lib/peer-channel-broker.js:79-150, 214-236,
 lib/worker-message.js:203-262), over every run: for each kind of message, the steps that send it and
 to whom.
 */
module PeerTold {
  import opened Wrappers
  import opened PeerBrokering
  import opened PeerSafety
  import opened PeerResults

  // ----- what each step adds to the queue of one worker -----

  function ToldOnRequest(s: Sys, v: Worker, d: Device, limited: bool, missing: string): seq<ToWorker> {
    if limited then [ChannelDeny(d, "RATE_LIMITED")]
    else if d !in s.main.deviceMap then if missing != "DEVICE_NOT_FOUND" then [] else [ChannelDeny(d, missing)]
    else if s.main.deviceMap[d] == v then [ChannelDeny(d, "PEER_SELF_TARGET")]
    else []
  }

  function ToldByMain(s: Sys, v: Worker, m: ToMain, limited: bool, missing: string, w: Worker): seq<ToWorker> {
    match m
    case ChannelRequest(d, _) => if v == w then ToldOnRequest(s, v, d, limited, missing) else []
    case AllowReply(id) =>
      if id in s.main.awaiting && s.main.awaiting[id].caller == w
      then [ChannelGrant(s.main.awaiting[id].device, s.main.awaiting[id].callee, None)] else []
    case SelfInvalidate => if limited then [] else Invalidations(s.main.registry, v, w)
  }

  function ToldOnAuth(s: Sys, c: Check, ok: bool, code: string, w: Worker): seq<ToWorker> {
    if !ok then if w == c.caller then [ChannelDeny(c.device, code)] else []
    else if c.callee.None? then if w == c.caller then [ChannelDeny(c.device, c.code)] else []
    else ToldOnGrant(s, c, c.callee.value, w)
  }

  function ToldOnGrant(s: Sys, c: Check, b: Worker, w: Worker): seq<ToWorker> {
    var p := Pair(c.caller, b);
    if p !in s.main.registry then
      (if w == b then [ChannelOpen(c.caller, c.key, c.device, s.main.nextPort)] else [])
      + if w == c.caller then [ChannelGrant(c.device, b, Some(s.main.nextPort))] else []
    else if b in s.main.ended then if w == c.caller then [ChannelDeny(c.device, s.main.ended[b])] else []
    else if w == b then [ChannelAllow(c.caller, c.device, s.main.nextAllow, s.main.registry[p].port)]
    else []
  }

  function ToldOnRecheck(s: Sys, r: Recheck, w: Worker): seq<ToWorker> {
    if r !in s.main.rechecks || r.pair !in s.main.registry || s.main.registry[r.pair].port != r.port then []
    else
      (if w == r.pair.one then [Invalidate(r.pair.other, None)] else [])
      + if w == r.pair.other then [Invalidate(r.pair.one, Some(r.port))] else []
  }

  function Told(s: Sys, step: Step, w: Worker): seq<ToWorker> {
    match step
    case MainStep(v, limited, missing) =>
      if Queue(s.outbox, v) == [] then [] else ToldByMain(s, v, s.outbox[v][0], limited, missing, w)
    case AuthStep(i, ok, code) => if i < |s.main.checks| then ToldOnAuth(s, s.main.checks[i], ok, code, w) else []
    case RecheckedStep(r, ok) => if ok then [] else ToldOnRecheck(s, r, w)
    case PurgeStep(v) => Invalidations(s.main.registry, v, w)
    case EndStep(v, code) => if v in s.main.ended then [] else Denials(s.main.awaiting, s.main.nextAllow, v, w, code)
    case _ => []
  }

  /** The queue after a worker has taken its oldest message, if this is that step. */
  function Taken(s: Sys, step: Step, w: Worker): seq<ToWorker> {
    if step == WorkerStep(w) && Queue(s.inbox, w) != [] then s.inbox[w][1..] else Queue(s.inbox, w)
  }

  ghost predicate Tells(s: Sys, s': Sys, w: Worker, more: seq<ToWorker>) { Queue(s'.inbox, w) == Queue(s.inbox, w) + more }

  lemma {:induction false} MainTells(s: Sys, s': Sys, v: Worker, limited: bool, missing: string, w: Worker)
    requires Queue(s.outbox, v) != [] && s' == MainReceives(s, v, limited, missing)
    ensures Tells(s, s', w, ToldByMain(s, v, s.outbox[v][0], limited, missing, w))
  {
    var s1 := s.(outbox := s.outbox[v := s.outbox[v][1..]]);
    match s.outbox[v][0]
    case ChannelRequest(d, k) => RequestTells(s1, s', v, d, k, limited, missing, w);
    case AllowReply(id) =>
    case SelfInvalidate => if !limited { InvalidateTells(s1, s', v, w); }
  }

  lemma {:induction false} RequestTells(s: Sys, s': Sys, v: Worker, d: Device, k: Key, limited: bool, missing: string, w: Worker)
    requires s' == if limited then Deny(s, v, d, "RATE_LIMITED") else HandleRequest(s, v, d, k, missing)
    ensures Tells(s, s', w, if v == w then ToldOnRequest(s, v, d, limited, missing) else [])
  {
  }

  lemma {:induction false} InvalidateTells(s: Sys, s': Sys, v: Worker, w: Worker)
    requires s' == InvalidateWorker(s, v)
    ensures Tells(s, s', w, Invalidations(s.main.registry, v, w))
  {
    if w !in s'.inbox { NotParty(s.main.registry, v, w); }
  }

  /** Nobody outside the registry is told anything. */
  lemma {:induction false} NotParty(registry: map<Pair, Entry>, v: Worker, w: Worker)
    requires w !in Parties(registry)
    ensures Invalidations(registry, v, w) == []
  {
    assert Pair(v, w) in registry ==> Pair(v, w).other in Parties(registry);
    assert Pair(w, v) in registry ==> Pair(w, v).one in Parties(registry);
  }

  lemma {:induction false} AuthTells(s: Sys, s': Sys, i: nat, ok: bool, code: string, w: Worker)
    requires i < |s.main.checks| && s' == Authenticated(s, i, ok, code)
    ensures Tells(s, s', w, ToldOnAuth(s, s.main.checks[i], ok, code, w))
  {
    var c := s.main.checks[i];
    var s1 := s.(main := s.main.(checks := s.main.checks[..i] + s.main.checks[i + 1..]));
    if ok && c.callee.Some? {
      assert ToldOnGrant(s1, c, c.callee.value, w) == ToldOnGrant(s, c, c.callee.value, w);
      GrantTells(s1, s', c, c.callee.value, w);
    }
  }

  lemma {:induction false} GrantTells(s: Sys, s': Sys, c: Check, b: Worker, w: Worker)
    requires s' == GrantChannel(s, c.device, c.key, c.caller, b)
    ensures Tells(s, s', w, ToldOnGrant(s, c, b, w))
  {
    if Pair(c.caller, b) in s.main.registry { OnOpenTells(s, s', c, b, w); } else { NewTells(s, s', c, b, w); }
  }

  lemma {:induction false} OnOpenTells(s: Sys, s': Sys, c: Check, b: Worker, w: Worker)
    requires Pair(c.caller, b) in s.main.registry && s' == GrantOnOpen(s, c.device, c.key, c.caller, b)
    ensures Tells(s, s', w, ToldOnGrant(s, c, b, w))
  {
  }

  lemma {:induction false} NewTells(s: Sys, s': Sys, c: Check, b: Worker, w: Worker)
    requires Pair(c.caller, b) !in s.main.registry && s' == GrantNew(s, c.device, c.key, c.caller, b)
    ensures Tells(s, s', w, ToldOnGrant(s, c, b, w))
  {
    var open := ChannelOpen(c.caller, c.key, c.device, s.main.nextPort);
    var grant := ChannelGrant(c.device, b, Some(s.main.nextPort));
    assert s'.inbox == Push(Push(s.inbox, b, open), c.caller, grant);
  }

  lemma {:induction false} EndTells(s: Sys, s': Sys, v: Worker, code: string, w: Worker)
    requires v !in s.main.ended && s' == WorkerEnds(s, v, code)
    ensures Tells(s, s', w, Denials(s.main.awaiting, s.main.nextAllow, v, w, code))
  {
    if w !in s'.inbox { NoDenials(s.main.awaiting, s.main.nextAllow, v, w, code); }
  }

  lemma {:induction false} NoDenials(awaiting: map<nat, Await>, n: nat, v: Worker, w: Worker, code: string)
    requires forall id :: id in awaiting ==> awaiting[id].caller != w
    ensures Denials(awaiting, n, v, w, code) == []
    decreases n
  {
    if n > 0 { NoDenials(awaiting, n - 1, v, w, code); }
  }

  lemma {:induction false} FlushTells(s: Sys, v: Worker, device: Device, target: Option<Worker>, code: string)
    requires Sound(s.ends)
    ensures Flush(s, v, device, target, code).inbox == s.inbox
  {
  }

  lemma {:induction false} WorkerTells(s: Sys, v: Worker, m: ToWorker)
    requires Sound(s.ends)
    ensures WorkerHandles(s, v, m).inbox == s.inbox
  {
    match m
    case ChannelGrant(d, t, p) =>
      PeerBrokering.AttachSound(s.ends, v, d, t, p);
      FlushTells(s.(ends := Attach(s.ends, v, d, t, p)), v, d, Some(t), "");
    case ChannelDeny(d, code) => FlushTells(s, v, d, None, code);
    case _ =>
  }

  /** What a step adds to the queue of each worker. */
  lemma {:induction false} StepTells(s: Sys, step: Step, s': Sys, w: Worker)
    requires Follows(s, step, s')
    ensures Queue(s'.inbox, w) == Taken(s, step, w) + Told(s, step, w)
  {
    match step
    case MainStep(v, limited, missing) => if Queue(s.outbox, v) != [] { MainTells(s, s', v, limited, missing, w); }
    case AuthStep(i, ok, code) => if i < |s.main.checks| { AuthTells(s, s', i, ok, code, w); }
    case WorkerStep(v) => if Queue(s.inbox, v) != [] { WorkerTells(s.(inbox := s.inbox[v := s.inbox[v][1..]]), v, s.inbox[v][0]); }
    case RecheckedStep(r, ok) => RecheckTells(s, s', r, ok, w);
    case PurgeStep(v) =>
      var left := map d | d in s.main.deviceMap && s.main.deviceMap[d] != v :: s.main.deviceMap[d];
      InvalidateTells(s.(main := s.main.(deviceMap := left)), s', v, w);
    case EndStep(v, code) => if v !in s.main.ended { EndTells(s, s', v, code, w); }
    case _ => OtherTells(s, step, s');
  }

  lemma {:induction false} RecheckTells(s: Sys, s': Sys, r: Recheck, ok: bool, w: Worker)
    requires s' == Rechecked(s, r, ok)
    ensures Tells(s, s', w, if ok then [] else ToldOnRecheck(s, r, w))
  {
  }

  lemma {:induction false} OtherTells(s: Sys, step: Step, s': Sys)
    requires Follows(s, step, s')
    requires !step.MainStep? && !step.AuthStep? && !step.WorkerStep? && !step.RecheckedStep? && !step.PurgeStep? && !step.EndStep?
    ensures s'.inbox == s.inbox
  {
  }

  lemma {:induction false} DenialsHas(awaiting: map<nat, Await>, n: nat, v: Worker, w: Worker, code: string, m: ToWorker)
    ensures m in Denials(awaiting, n, v, w, code) <==>
      m.ChannelDeny? && m.code == code && exists id :: id in awaiting && id < n && awaiting[id] == Await(v, w, m.device)
    decreases n
  {
    if n > 0 { DenialsHas(awaiting, n - 1, v, w, code, m); }
  }

  // ----- the results -----

  /** The oldest message of worker `v` to the main thread, which it handles in this step. */
  ghost predicate Handles(s: Sys, step: Step, v: Worker, m: ToMain) {
    step.MainStep? && step.w == v && Queue(s.outbox, v) != [] && Queue(s.outbox, v)[0] == m
  }

  /** The main thread waits for `b` to allow `a` the device. */
  ghost predicate AwaitsAllow(s: Sys, b: Worker, a: Worker, d: Device) {
    exists id :: id in s.main.awaiting && id < s.main.nextAllow && s.main.awaiting[id] == Await(b, a, d)
  }

  /** The step puts the message into the queue of worker `w`. */
  ghost predicate Adds(s: Sys, step: Step, s': Sys, w: Worker, m: ToWorker) {
    Taken(s, step, w) <= Queue(s'.inbox, w) && m in Queue(s'.inbox, w)[|Taken(s, step, w)|..]
  }

  lemma {:induction false} AddsTold(s: Sys, step: Step, s': Sys, w: Worker, m: ToWorker)
    requires Follows(s, step, s')
    ensures Adds(s, step, s', w, m) <==> m in Told(s, step, w)
  {
    StepTells(s, step, s', w);
    assert Queue(s'.inbox, w)[|Taken(s, step, w)|..] == Told(s, step, w);
  }

  /** In this step the authorization of check `c` calls back. */
  ghost predicate Answers(s: Sys, step: Step, c: Check) { step.AuthStep? && step.i < |s.main.checks| && s.main.checks[step.i] == c }

  /** Why a request is refused at once. */
  ghost predicate RefusedAtOnce(s: Sys, step: Step, w: Worker, d: Device, code: string)
    requires step.MainStep?
  {
    if step.limited then code == "RATE_LIMITED"
    else if d in s.main.deviceMap then s.main.deviceMap[d] == w && code == "PEER_SELF_TARGET"
    else step.missing == "DEVICE_NOT_FOUND" && code == "DEVICE_NOT_FOUND"
  }

  /** Why one is refused when its authorization calls back. */
  ghost predicate RefusedOnAuth(s: Sys, step: Step, c: Check, code: string)
    requires step.AuthStep?
  {
    if !step.ok then code == step.code
    else if c.callee.None? then code == c.code
    else Pair(c.caller, c.callee.value) in s.main.registry && c.callee.value in s.main.ended && code == s.main.ended[c.callee.value]
  }

  ghost predicate Refuses(s: Sys, step: Step, w: Worker, d: Device, code: string) {
    || (exists k :: Handles(s, step, w, ChannelRequest(d, k)) && RefusedAtOnce(s, step, w, d, code))
    || (exists c :: Answers(s, step, c) && c.caller == w && c.device == d && RefusedOnAuth(s, step, c, code))
    || (step.EndStep? && step.w !in s.main.ended && code == step.code && AwaitsAllow(s, step.w, w, d))
  }

  lemma {:induction false} InvalidationsHas(registry: map<Pair, Entry>, v: Worker, w: Worker, m: ToWorker)
    ensures m in Invalidations(registry, v, w) <==>
      v != w && ((Pair(v, w) in registry && m == Invalidate(v, Some(registry[Pair(v, w)].port))) || (Pair(w, v) in registry && m == Invalidate(v, None)))
  {
  }

  lemma {:induction false} MainRefuses(s: Sys, step: Step, w: Worker, d: Device, code: string)
    requires step.MainStep? && Queue(s.outbox, step.w) != []
    ensures ChannelDeny(d, code) in Told(s, step, w) <==> exists k :: Handles(s, step, w, ChannelRequest(d, k)) && RefusedAtOnce(s, step, w, d, code)
  {
    var m := s.outbox[step.w][0];
    if m.ChannelRequest? && step.w == w { assert Handles(s, step, w, ChannelRequest(m.device, m.key)); }
    InvalidationsHas(s.main.registry, step.w, w, ChannelDeny(d, code));
  }

  lemma {:induction false} AuthRefuses(s: Sys, step: Step, c: Check, w: Worker, d: Device, code: string)
    requires Answers(s, step, c)
    ensures ChannelDeny(d, code) in Told(s, step, w) <==> c.caller == w && c.device == d && RefusedOnAuth(s, step, c, code)
  {
  }

  /**
   In every run, a worker is refused a channel for a device exactly for one of these reasons, and with
   the code of that reason: its request was over the rate, for a device of its own, or for one nobody
   hosts; the authorization of its request failed, or told why the device is missing; or the callee has
   ended, before or after it was asked to allow the device.
   */
  lemma {:induction false} RefusedIff(ss: seq<Sys>, steps: seq<Step>, step: Step, s': Sys, w: Worker, d: Device, code: string)
    requires IsRun(ss, steps) && Follows(ss[|steps|], step, s')
    ensures Adds(ss[|steps|], step, s', w, ChannelDeny(d, code)) <==> Refuses(ss[|steps|], step, w, d, code)
  {
    AddsTold(ss[|steps|], step, s', w, ChannelDeny(d, code));
    ToldRefuses(ss[|steps|], step, w, d, code);
  }

  lemma {:induction false} ToldRefuses(s: Sys, step: Step, w: Worker, d: Device, code: string)
    ensures ChannelDeny(d, code) in Told(s, step, w) <==> Refuses(s, step, w, d, code)
  {
    match step
    case MainStep(v, _, _) => if Queue(s.outbox, v) != [] { MainRefuses(s, step, w, d, code); }
    case AuthStep(i, _, _) => if i < |s.main.checks| { AuthRefuses(s, step, s.main.checks[i], w, d, code); }
    case EndStep(v, c) => DenialsHas(s.main.awaiting, s.main.nextAllow, v, w, c, ChannelDeny(d, code));
    case PurgeStep(v) => InvalidationsHas(s.main.registry, v, w, ChannelDeny(d, code));
    case _ =>
  }

  /** The callee has allowed the device for `w`, or a new channel is opened to it. */
  ghost predicate Grants(s: Sys, step: Step, w: Worker, d: Device, b: Worker, port: Option<nat>) {
    || (exists v, id :: Handles(s, step, v, AllowReply(id)) && id in s.main.awaiting && s.main.awaiting[id] == Await(b, w, d) && port == None)
    || (exists c :: Answers(s, step, c) && step.ok && c.caller == w && c.device == d && c.callee == Some(b)
          && Pair(w, b) !in s.main.registry && port == Some(s.main.nextPort))
  }

  /**
   In every run, a worker is granted a channel for a device exactly when the authorization of its
   request passes and no channel to the callee is open, with a new port; or, without one, when the
   callee answers that it allows the device.
   */
  lemma {:induction false} GrantedIff(
    ss: seq<Sys>, steps: seq<Step>, step: Step, s': Sys, w: Worker, d: Device, b: Worker, port: Option<nat>)
    requires IsRun(ss, steps) && Follows(ss[|steps|], step, s')
    ensures Adds(ss[|steps|], step, s', w, ChannelGrant(d, b, port)) <==> Grants(ss[|steps|], step, w, d, b, port)
  {
    AddsTold(ss[|steps|], step, s', w, ChannelGrant(d, b, port));
    ToldGrants(ss[|steps|], step, w, d, b, port);
  }

  lemma {:induction false} ToldGrants(s: Sys, step: Step, w: Worker, d: Device, b: Worker, port: Option<nat>)
    ensures ChannelGrant(d, b, port) in Told(s, step, w) <==> Grants(s, step, w, d, b, port)
  {
    var m := ChannelGrant(d, b, port);
    match step
    case MainStep(v, _, _) => if Queue(s.outbox, v) != [] { MainGrants(s, step, w, d, b, port); }
    case AuthStep(i, _, _) => if i < |s.main.checks| { AuthGrants(s, step, s.main.checks[i], w, d, b, port); }
    case EndStep(v, c) => DenialsHas(s.main.awaiting, s.main.nextAllow, v, w, c, m);
    case PurgeStep(v) => InvalidationsHas(s.main.registry, v, w, m);
    case _ =>
  }

  lemma {:induction false} MainGrants(s: Sys, step: Step, w: Worker, d: Device, b: Worker, port: Option<nat>)
    requires step.MainStep? && Queue(s.outbox, step.w) != []
    ensures ChannelGrant(d, b, port) in Told(s, step, w) <==>
      exists v, id :: Handles(s, step, v, AllowReply(id)) && id in s.main.awaiting && s.main.awaiting[id] == Await(b, w, d) && port == None
  {
    var m := s.outbox[step.w][0];
    assert Handles(s, step, step.w, m);
    InvalidationsHas(s.main.registry, step.w, w, ChannelGrant(d, b, port));
  }

  lemma {:induction false} AuthGrants(s: Sys, step: Step, c: Check, w: Worker, d: Device, b: Worker, port: Option<nat>)
    requires Answers(s, step, c)
    ensures ChannelGrant(d, b, port) in Told(s, step, w) <==>
      step.ok && c.caller == w && c.device == d && c.callee == Some(b) && Pair(w, b) !in s.main.registry && port == Some(s.main.nextPort)
  {
  }

  /** What a callee is told of an authorization that passes: open a channel, or allow the device on the one that is open. */
  ghost predicate Admits(s: Sys, step: Step, b: Worker, m: ToWorker) {
    exists c :: Answers(s, step, c) && step.ok && c.callee == Some(b) && AdmitsFor(s, c, b, m)
  }

  ghost predicate AdmitsFor(s: Sys, c: Check, b: Worker, m: ToWorker) {
    if Pair(c.caller, b) !in s.main.registry then m == ChannelOpen(c.caller, c.key, c.device, s.main.nextPort)
    else b !in s.main.ended && m == ChannelAllow(c.caller, c.device, s.main.nextAllow, s.main.registry[Pair(c.caller, b)].port)
  }

  /** In every run, a worker is told to serve a device exactly when an authorization for it passes, with that request's key, on the channel of that pair. */
  lemma {:induction false} AdmittedIff(ss: seq<Sys>, steps: seq<Step>, step: Step, s': Sys, b: Worker, m: ToWorker)
    requires IsRun(ss, steps) && Follows(ss[|steps|], step, s') && (m.ChannelOpen? || m.ChannelAllow?)
    ensures Adds(ss[|steps|], step, s', b, m) <==> Admits(ss[|steps|], step, b, m)
  {
    AddsTold(ss[|steps|], step, s', b, m);
    ToldAdmits(ss[|steps|], step, b, m);
  }

  lemma {:induction false} ToldAdmits(s: Sys, step: Step, b: Worker, m: ToWorker)
    requires m.ChannelOpen? || m.ChannelAllow?
    ensures m in Told(s, step, b) <==> Admits(s, step, b, m)
  {
    match step
    case MainStep(v, _, _) => InvalidationsHas(s.main.registry, v, b, m);
    case AuthStep(i, _, _) => if i < |s.main.checks| { AuthAdmits(s, step, s.main.checks[i], b, m); }
    case EndStep(v, c) => DenialsHas(s.main.awaiting, s.main.nextAllow, v, b, c, m);
    case PurgeStep(v) => InvalidationsHas(s.main.registry, v, b, m);
    case _ =>
  }

  lemma {:induction false} AuthAdmits(s: Sys, step: Step, c: Check, b: Worker, m: ToWorker)
    requires Answers(s, step, c) && (m.ChannelOpen? || m.ChannelAllow?)
    ensures m in Told(s, step, b) <==> step.ok && c.callee == Some(b) && AdmitsFor(s, c, b, m)
  {
  }

  /** All channels of `v` are taken down: its devices are purged, or it says so itself. */
  ghost predicate Purges(s: Sys, step: Step, v: Worker) {
    step == PurgeStep(v) || (Handles(s, step, v, SelfInvalidate) && !step.limited)
  }

  /** Between the workers `v` and `w` there is a channel whose end at `w` this message takes down. */
  ghost predicate Names(registry: map<Pair, Entry>, v: Worker, w: Worker, m: ToWorker) {
    || (Pair(v, w) in registry && m == Invalidate(v, Some(registry[Pair(v, w)].port)))
    || (Pair(w, v) in registry && m == Invalidate(v, None))
  }

  /** A recheck that was denied was for this very entry. */
  ghost predicate Revokes(s: Sys, step: Step, p: Pair) {
    && step.RecheckedStep? && !step.ok && step.r in s.main.rechecks && step.r.pair == p
    && p in s.main.registry && s.main.registry[p].port == step.r.port
  }

  /**
   In every run, a worker is told to take down its end of a channel exactly when the other worker's
   channels are all taken down or a recheck of that channel is denied, and the channel is in the registry.
   */
  lemma {:induction false} InvalidatedIff(ss: seq<Sys>, steps: seq<Step>, step: Step, s': Sys, w: Worker, m: ToWorker)
    requires IsRun(ss, steps) && Follows(ss[|steps|], step, s') && m.Invalidate?
    ensures Adds(ss[|steps|], step, s', w, m) <==>
      (exists v :: PurgedFrom(ss[|steps|], step, v, w, m)) || (exists p :: RevokedFrom(ss[|steps|], step, p, w, m))
  {
    AddsTold(ss[|steps|], step, s', w, m);
    ToldInvalidates(ss[|steps|], step, w, m);
  }

  ghost predicate PurgedFrom(s: Sys, step: Step, v: Worker, w: Worker, m: ToWorker) {
    v != w && Purges(s, step, v) && Names(s.main.registry, v, w, m)
  }

  ghost predicate RevokedFrom(s: Sys, step: Step, p: Pair, w: Worker, m: ToWorker) {
    Revokes(s, step, p) &&
    ((w == p.one && m == Invalidate(p.other, None)) || (w == p.other && m == Invalidate(p.one, Some(s.main.registry[p].port))))
  }

  lemma {:induction false} ToldInvalidates(s: Sys, step: Step, w: Worker, m: ToWorker)
    requires m.Invalidate?
    ensures m in Told(s, step, w) <==>
      (exists v :: PurgedFrom(s, step, v, w, m)) || (exists p :: RevokedFrom(s, step, p, w, m))
  {
    match step
    case MainStep(v, _, _) => if Queue(s.outbox, v) != [] { MainInvalidates(s, step, w, m); }
    case RecheckedStep(r, ok) => RecheckInvalidates(s, step, w, m);
    case EndStep(v, c) => DenialsHas(s.main.awaiting, s.main.nextAllow, v, w, c, m);
    case PurgeStep(v) =>
      InvalidationsHas(s.main.registry, v, w, m);
      if m in Told(s, step, w) { assert PurgedFrom(s, step, v, w, m); }
    case _ =>
  }

  lemma {:induction false} MainInvalidates(s: Sys, step: Step, w: Worker, m: ToWorker)
    requires step.MainStep? && Queue(s.outbox, step.w) != [] && m.Invalidate?
    ensures m in Told(s, step, w) <==> exists v :: PurgedFrom(s, step, v, w, m)
  {
    InvalidationsHas(s.main.registry, step.w, w, m);
    assert Handles(s, step, step.w, s.outbox[step.w][0]);
    if m in Told(s, step, w) { assert PurgedFrom(s, step, step.w, w, m); }
  }

  lemma {:induction false} RecheckInvalidates(s: Sys, step: Step, w: Worker, m: ToWorker)
    requires step.RecheckedStep? && m.Invalidate?
    ensures m in Told(s, step, w) <==> exists p :: RevokedFrom(s, step, p, w, m)
  {
    if m in Told(s, step, w) { assert RevokedFrom(s, step, step.r.pair, w, m); }
  }

  /**
   In every run, an entry of the registry is removed exactly when one of its workers has its channels
   taken down or a recheck of it is denied; a purge takes away the devices of its worker and no others.
   */
  lemma {:induction false} RemovedIff(ss: seq<Sys>, steps: seq<Step>, step: Step, s': Sys, p: Pair)
    requires IsRun(ss, steps) && Follows(ss[|steps|], step, s') && p in ss[|steps|].main.registry
    ensures var s := ss[|steps|];
      p !in s'.main.registry <==> Purges(s, step, p.one) || Purges(s, step, p.other) || Revokes(s, step, p)
    ensures step.PurgeStep? ==> forall d ::
      && (d in s'.main.deviceMap <==> d in ss[|steps|].main.deviceMap && ss[|steps|].main.deviceMap[d] != step.w)
      && (d in s'.main.deviceMap ==> s'.main.deviceMap[d] == ss[|steps|].main.deviceMap[d])
  {
    StepRemoves(ss[|steps|], step, s', p);
  }

  lemma {:induction false} StepRemoves(s: Sys, step: Step, s': Sys, p: Pair)
    requires Follows(s, step, s') && p in s.main.registry
    ensures p !in s'.main.registry <==> Purges(s, step, p.one) || Purges(s, step, p.other) || Revokes(s, step, p)
  {
    match step
    case MainStep(_, _, _) => if Queue(s.outbox, step.w) != [] { MainRemoves(s, step, s', p, s.outbox[step.w][0]); }
    case AuthStep(i, ok, code) => if i < |s.main.checks| { AuthKeeps(s, s', i, ok, code, p); }
    case WorkerStep(v) => if Queue(s.inbox, v) != [] { WorkerLeavesMain(s.(inbox := s.inbox[v := s.inbox[v][1..]]), v, s.inbox[v][0]); }
    case PurgeStep(v) => PurgeRemoves(s, step, s', p);
    case RecheckedStep(r, ok) => RecheckRemoves(s, s', r, ok, p);
    case _ => assert s'.main.registry == s.main.registry;
  }

  lemma {:induction false} PurgeRemoves(s: Sys, step: Step, s': Sys, p: Pair)
    requires step.PurgeStep? && Follows(s, step, s') && p in s.main.registry
    ensures p !in s'.main.registry <==> Purges(s, step, p.one) || Purges(s, step, p.other)
  {
  }

  lemma {:induction false} RecheckRemoves(s: Sys, s': Sys, r: Recheck, ok: bool, p: Pair)
    requires s' == Rechecked(s, r, ok) && p in s.main.registry
    ensures p !in s'.main.registry <==> Revokes(s, RecheckedStep(r, ok), p)
  {
  }

  lemma {:induction false} AuthKeeps(s: Sys, s': Sys, i: nat, ok: bool, code: string, p: Pair)
    requires i < |s.main.checks| && s' == Authenticated(s, i, ok, code) && p in s.main.registry
    ensures p in s'.main.registry
  {
  }

  lemma {:induction false} MainRemoves(s: Sys, step: Step, s': Sys, p: Pair, m: ToMain)
    requires step.MainStep? && Follows(s, step, s') && p in s.main.registry && Queue(s.outbox, step.w) != [] && s.outbox[step.w][0] == m
    ensures p !in s'.main.registry <==> Purges(s, step, p.one) || Purges(s, step, p.other)
  {
    assert Handles(s, step, step.w, m);
    match m
    case ChannelRequest(_, _) => assert s'.main.registry == s.main.registry;
    case AllowReply(_) => assert s'.main.registry == s.main.registry;
    case SelfInvalidate =>
  }

  lemma {:induction false} WorkerLeavesMain(s: Sys, v: Worker, m: ToWorker)
    requires Sound(s.ends)
    ensures WorkerHandles(s, v, m).main == s.main
  {
    match m
    case ChannelGrant(d, t, p) => PeerBrokering.AttachSound(s.ends, v, d, t, p);
    case _ =>
  }

  /** The authorization that a request within the rate asks for, if it asks for one. */
  function AskedOf(s: Sys, w: Worker, d: Device, k: Key, missing: string): seq<Check> {
    if d in s.main.deviceMap then if s.main.deviceMap[d] == w then [] else [Check(w, d, k, Some(s.main.deviceMap[d]), "")]
    else if missing == "DEVICE_NOT_FOUND" then [] else [Check(w, d, k, None, missing)]
  }

  /**
   In every run, a request asks for one authorization, with its own key, exactly if it is within the
   rate and for a device that another worker hosts, or that is missing for a reason to be told; any
   other request asks for none.
   */
  lemma {:induction false} AsksOnce(ss: seq<Sys>, steps: seq<Step>, step: Step, s': Sys, d: Device, k: Key)
    requires IsRun(ss, steps) && Follows(ss[|steps|], step, s') && step.MainStep? && Handles(ss[|steps|], step, step.w, ChannelRequest(d, k))
    ensures var s := ss[|steps|];
      s'.main.checks == s.main.checks + if step.limited then [] else AskedOf(s, step.w, d, k, step.missing)
  {
  }

  /** In every run, the answer to a recheck is counted off, and nothing else changes unless it is a denial. */
  lemma {:induction false} RecheckCountsOff(ss: seq<Sys>, steps: seq<Step>, r: Recheck, ok: bool, s': Sys)
    requires IsRun(ss, steps) && Follows(ss[|steps|], RecheckedStep(r, ok), s')
    ensures var s := ss[|steps|];
      s'.main.rechecks == s.main.rechecks - {r} && (ok ==> s' == s.(main := s.main.(rechecks := s.main.rechecks - {r})))
  {
  }

  /** In every run, a denial fails every call that waits for the device, in order, with the code of the denial. */
  lemma {:induction false} DenialFailsAll(ss: seq<Sys>, steps: seq<Step>, s': Sys, w: Worker, d: Device, code: string)
    requires IsRun(ss, steps) && Follows(ss[|steps|], WorkerStep(w), s')
    requires Queue(ss[|steps|].inbox, w) != [] && Queue(ss[|steps|].inbox, w)[0] == ChannelDeny(d, code)
    ensures var s := ss[|steps|]; var ids := Queue(s.ends.waiting, At(w, d));
      && At(w, d) !in s'.ends.waiting && |s'.log| == |s.log| + |ids| && s.log <= s'.log
      && forall i :: 0 <= i < |ids| ==> s'.log[|s.log| + i] == Failed(ids[i], code)
  {
  }

  /** In every run, a worker that has handled an Invalidate has no channel with that worker in its slot. */
  lemma {:induction false} InvalidateFreesSlot(ss: seq<Sys>, steps: seq<Step>, s': Sys, w: Worker, o: Worker, closes: Option<nat>)
    requires IsRun(ss, steps) && Follows(ss[|steps|], WorkerStep(w), s')
    requires Queue(ss[|steps|].inbox, w) != [] && Queue(ss[|steps|].inbox, w)[0] == Invalidate(o, closes)
    ensures Pair(w, o) !in s'.ends.slots
    ensures Pair(w, o) in ss[|steps|].ends.slots ==> var c := ss[|steps|].ends.slots[Pair(w, o)]; c < |s'.ends.chans| && s'.ends.chans[c].closed
    ensures forall p :: p != Pair(w, o) ==> (p in s'.ends.slots <==> p in ss[|steps|].ends.slots)
  {
    RunIsExec(ss, steps);
    EveryRunSafe(steps);
    var s := ss[|steps|];
    assert Shape(s.ends);
    assert s'.ends == CloseSlot(s.ends, w, o);
  }
}
