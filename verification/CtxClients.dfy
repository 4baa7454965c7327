/**
 Service clients handed to handlers (lib/handler-ctx.js:62-71, 130-154, lib/service-client.js:
 16-27, 72-92): one client per cache key, shared by all callers of the device, with the
 caller's key attached to each invoke.  Creating a client takes time, so several may be under
 way for one key at once.
 */
module CtxClients {
  import opened Wrappers

  /** What a handler asks for: the hop's target and the identity it is authorized as. */
  datatype Wanted = Wanted(deviceID: string, serviceID: string, identity: string)

  /** A client: who it is authorized as, and who pays if an invoke does not say. */
  datatype Client = Client(deviceID: string, serviceID: string, appKey: string, billingKey: string)

  function CacheKey(w: Wanted): string { w.deviceID + "|" + w.serviceID + "|" + w.identity }

  /** `createServiceClient` passes no billing key of its own. */
  function NewClient(w: Wanted): Client { Client(w.deviceID, w.serviceID, w.identity, w.identity) }

  /** A `billingWrapper`: a shared client, for one caller. */
  datatype Handle = Handle(client: Client, wanted: Wanted, caller: Option<string>)

  /** What an invoke of a handle is sent with; `given` is any billing key the module put in the options. */
  datatype Sent = Sent(handle: Handle, deviceID: string, serviceID: string, appKey: string, billingKey: string)

  function InvokeOf(h: Handle, given: Option<string>): Sent {
    var withBilling := h.caller;                 // replaces `given`, even if the caller has no key
    Sent(h, h.client.deviceID, h.client.serviceID, h.client.appKey,
         if withBilling.Some? then withBilling.value else h.client.billingKey)
  }

  /** One device's cache, the creations under way, the handles given out and the invokes made with them. */
  datatype State = State(cache: map<string, Client>, creating: seq<(Wanted, Option<string>)>, handles: seq<Handle>, sent: seq<Sent>)

  function Ask(s: State, w: Wanted, caller: Option<string>): State {
    if CacheKey(w) in s.cache then s.(handles := s.handles + [Handle(s.cache[CacheKey(w)], w, caller)])
    else s.(creating := s.creating + [(w, caller)])
  }

  function Created(s: State, i: nat, ok: bool): State
    requires i < |s.creating|
  {
    var (w, caller) := s.creating[i];
    var s1 := s.(creating := s.creating[..i] + s.creating[i + 1..]);
    if !ok then s1
    else s1.(cache := s.cache[CacheKey(w) := NewClient(w)], handles := s.handles + [Handle(NewClient(w), w, caller)])
  }

  datatype Step =
    | AskStep(wanted: Wanted, caller: Option<string>)
    | CreatedStep(i: nat, ok: bool)
    | InvokeStep(h: nat, given: Option<string>)

  function Next(s: State, step: Step): State {
    match step
    case AskStep(w, caller) => Ask(s, w, caller)
    case CreatedStep(i, ok) => if i < |s.creating| then Created(s, i, ok) else s
    case InvokeStep(h, given) => if h < |s.handles| then s.(sent := s.sent + [InvokeOf(s.handles[h], given)]) else s
  }

  function Exec(steps: seq<Step>): State {
    if steps == [] then State(map[], [], [], []) else Next(Exec(steps[..|steps| - 1]), steps[|steps| - 1])
  }

  // ----- cache keys -----

  /** No part of the target holds the separator. */
  predicate Separable(w: Wanted) { '|' !in w.deviceID && '|' !in w.serviceID && '|' !in w.identity }

  lemma FirstPart(a: string, b: string, c: string, d: string)
    requires a + "|" + b == c + "|" + d && '|' !in a && '|' !in c
    ensures a == c && b == d
  {
    var x, y := a + "|" + b, c + "|" + d;
    assert x[|a|] == '|' && forall i :: 0 <= i < |a| ==> x[i] == a[i] && a[i] in a;
    assert y[|c|] == '|' && forall i :: 0 <= i < |c| ==> y[i] == c[i] && c[i] in c;
    assert |a| == |c|;
    assert a == x[..|a|] && c == y[..|c|] && b == x[|a| + 1..] && d == y[|c| + 1..];
  }

  /** Two targets with one key are the same, if neither's device and service IDs hold the separator. */
  lemma KeysDiffer(v: Wanted, w: Wanted)
    requires '|' !in v.deviceID && '|' !in v.serviceID && '|' !in w.deviceID && '|' !in w.serviceID
    requires CacheKey(v) == CacheKey(w)
    ensures v == w
  {
    assert CacheKey(v) == v.deviceID + "|" + (v.serviceID + "|" + v.identity);
    assert CacheKey(w) == w.deviceID + "|" + (w.serviceID + "|" + w.identity);
    FirstPart(v.deviceID, v.serviceID + "|" + v.identity, w.deviceID, w.serviceID + "|" + w.identity);
    FirstPart(v.serviceID, v.identity, w.serviceID, w.identity);
  }

  /** The two separators of a key, and that its parts lie around them. */
  lemma KeyParts(w: Wanted)
    ensures var p, q, k := |w.deviceID|, |w.deviceID| + 1 + |w.serviceID|, CacheKey(w);
      && q + 1 + |w.identity| == |k| && k[p] == '|' && k[q] == '|'
      && k[..p] == w.deviceID && k[p + 1..q] == w.serviceID && k[q + 1..] == w.identity
  {
  }

  lemma {:induction false} OnlySeparators(w: Wanted, i: nat)
    requires Separable(w) && i < |CacheKey(w)|
    ensures CacheKey(w)[i] == '|' ==> i == |w.deviceID| || i == |w.deviceID| + 1 + |w.serviceID|
  {
    KeyParts(w);
    var p, q, k := |w.deviceID|, |w.deviceID| + 1 + |w.serviceID|, CacheKey(w);
    if i < p {
      assert k[i] == w.deviceID[i] && w.deviceID[i] in w.deviceID;
    } else if p < i < q {
      assert k[i] == w.serviceID[i - p - 1] && w.serviceID[i - p - 1] in w.serviceID;
    } else if q < i {
      assert k[i] == w.identity[i - q - 1] && w.identity[i - q - 1] in w.identity;
    }
  }

  lemma SeparableOwnsKey(v: Wanted, w: Wanted)
    requires Separable(w) && CacheKey(v) == CacheKey(w)
    ensures v == w
  {
    KeyParts(v);
    KeyParts(w);
    OnlySeparators(w, |v.deviceID|);
    OnlySeparators(w, |v.deviceID| + 1 + |v.serviceID|);
  }

  lemma SplitAt(s: string, i: nat)
    requires i < |s| && s[i] == '|'
    ensures s == s[..i] + "|" + s[i + 1..]
  {
  }

  /** Another target with the key of one that holds a separator: the separator is read as the key's own. */
  lemma {:induction false} KeyShared(w: Wanted) returns (v: Wanted)
    requires !Separable(w)
    ensures v != w && CacheKey(v) == CacheKey(w)
  {
    if '|' in w.deviceID {
      v := DeviceShared(w);
    } else if '|' in w.serviceID {
      v := ServiceShared(w);
    } else {
      v := IdentityShared(w);
    }
  }

  lemma {:induction false} DeviceShared(w: Wanted) returns (v: Wanted)
    requires '|' in w.deviceID
    ensures v != w && CacheKey(v) == CacheKey(w)
  {
    var i :| 0 <= i < |w.deviceID| && w.deviceID[i] == '|';
    var a, b := w.deviceID[..i], w.deviceID[i + 1..];
    SplitAt(w.deviceID, i);
    v := Wanted(a, b + "|" + w.serviceID, w.identity);
    assert |v.deviceID| < |w.deviceID|;
    assert CacheKey(v) == a + "|" + b + "|" + w.serviceID + "|" + w.identity;
  }

  lemma {:induction false} ServiceShared(w: Wanted) returns (v: Wanted)
    requires '|' in w.serviceID
    ensures v != w && CacheKey(v) == CacheKey(w)
  {
    var i :| 0 <= i < |w.serviceID| && w.serviceID[i] == '|';
    var a, b := w.serviceID[..i], w.serviceID[i + 1..];
    SplitAt(w.serviceID, i);
    v := Wanted(w.deviceID + "|" + a, b, w.identity);
    assert |v.serviceID| < |w.serviceID|;
    assert CacheKey(w) == w.deviceID + "|" + a + "|" + b + "|" + w.identity;
  }

  lemma {:induction false} IdentityShared(w: Wanted) returns (v: Wanted)
    requires '|' in w.identity
    ensures v != w && CacheKey(v) == CacheKey(w)
  {
    var i :| 0 <= i < |w.identity| && w.identity[i] == '|';
    var a, b := w.identity[..i], w.identity[i + 1..];
    SplitAt(w.identity, i);
    v := Wanted(w.deviceID, w.serviceID + "|" + a, b);
    assert |v.identity| < |w.identity|;
    assert CacheKey(w) == w.deviceID + "|" + w.serviceID + "|" + a + "|" + b;
  }

  /** A cache key belongs to one target alone exactly if that target holds no separator. */
  lemma {:induction false} KeyOwnedIff(w: Wanted)
    ensures (forall v :: CacheKey(v) == CacheKey(w) ==> v == w) <==>
      '|' !in w.deviceID && '|' !in w.serviceID && '|' !in w.identity
  {
    if Separable(w) {
      forall v | CacheKey(v) == CacheKey(w) ensures v == w { SeparableOwnsKey(v, w); }
    } else {
      var v := KeyShared(w);
    }
  }

  // ----- runs -----

  ghost predicate Asked(steps: seq<Step>, v: Wanted) {
    exists k :: 0 <= k < |steps| && steps[k].AskStep? && steps[k].wanted == v
  }

  /** Nothing else asked for in the run has the cache key of `w`. */
  ghost predicate Alone(steps: seq<Step>, w: Wanted) {
    forall k :: 0 <= k < |steps| && steps[k].AskStep? && CacheKey(steps[k].wanted) == CacheKey(w) ==> steps[k].wanted == w
  }

  /** The target a client was created for. */
  function TargetOf(c: Client): Wanted { Wanted(c.deviceID, c.serviceID, c.appKey) }

  ghost predicate ClientOk(steps: seq<Step>, c: Client, key: string) {
    c == NewClient(TargetOf(c)) && CacheKey(TargetOf(c)) == key && Asked(steps, TargetOf(c))
  }

  ghost predicate Inv(s: State, steps: seq<Step>) {
    && (forall k :: k in s.cache ==> ClientOk(steps, s.cache[k], k))
    && (forall i :: 0 <= i < |s.creating| ==> Asked(steps, s.creating[i].0))
    && (forall i :: 0 <= i < |s.handles| ==> ClientOk(steps, s.handles[i].client, CacheKey(s.handles[i].wanted)))
    && (forall i :: 0 <= i < |s.sent| ==> s.sent[i].handle in s.handles && s.sent[i] == InvokeOf(s.sent[i].handle, None))
  }

  lemma LaterInv(s: State, steps: seq<Step>, step: Step)
    requires Inv(s, steps)
    ensures Inv(s, steps + [step])
  {
    forall v | Asked(steps, v) ensures Asked(steps + [step], v) {
      var k :| 0 <= k < |steps| && steps[k].AskStep? && steps[k].wanted == v;
      assert (steps + [step])[k] == steps[k];
    }
  }

  lemma NextKeeps(s: State, steps: seq<Step>, step: Step)
    requires Inv(s, steps) && 0 < |steps| && steps[|steps| - 1] == step
    ensures Inv(Next(s, step), steps)
  {
    match step
    case AskStep(w, caller) => assert Asked(steps, w);
    case CreatedStep(i, ok) => if i < |s.creating| { assert TargetOf(NewClient(s.creating[i].0)) == s.creating[i].0; }
    case InvokeStep(h, given) =>
  }

  lemma {:induction false} EveryRun(steps: seq<Step>)
    ensures Inv(Exec(steps), steps)
    decreases |steps|
  {
    if steps != [] {
      var front, step := steps[..|steps| - 1], steps[|steps| - 1];
      EveryRun(front);
      LaterInv(Exec(front), front, step);
      assert front + [step] == steps;
      NextKeeps(Exec(front), steps, step);
    }
  }

  /** In a run, a target is alone with its key if it holds no separator, or if no device or service ID asked for does. */
  lemma {:induction false} AloneIf(steps: seq<Step>, w: Wanted)
    requires
      || Separable(w)
      || ('|' !in w.deviceID && '|' !in w.serviceID &&
          forall k :: 0 <= k < |steps| && steps[k].AskStep? ==>
            '|' !in steps[k].wanted.deviceID && '|' !in steps[k].wanted.serviceID)
    ensures Alone(steps, w)
  {
    forall k | 0 <= k < |steps| && steps[k].AskStep? && CacheKey(steps[k].wanted) == CacheKey(w)
      ensures steps[k].wanted == w
    {
      if Separable(w) { SeparableOwnsKey(steps[k].wanted, w); } else { KeysDiffer(steps[k].wanted, w); }
    }
  }

  /** An invoke goes to the target, and is authorized as the identity, its handler asked for. */
  predicate Faithful(x: Sent) { Wanted(x.deviceID, x.serviceID, x.appKey) == x.handle.wanted }

  /**
   In every run, whoever else shares the client: an invoke whose target nothing else asked for has
   the key of goes to that target and is authorized as the identity its own handler asked for,
   and is billed to its own caller, or to that identity if the caller has no key; what the module
   puts in the options never matters.
   */
  lemma {:induction false} InvokesKeepIdentities(steps: seq<Step>, i: nat)
    requires i < |Exec(steps).sent| && Alone(steps, Exec(steps).sent[i].handle.wanted)
    ensures var x := Exec(steps).sent[i]; var h := x.handle;
      && x.deviceID == h.wanted.deviceID && x.serviceID == h.wanted.serviceID && x.appKey == h.wanted.identity
      && x.billingKey == if h.caller.Some? then h.caller.value else h.wanted.identity
  {
    EveryRun(steps);
    var s := Exec(steps);
    var j :| 0 <= j < |s.handles| && s.handles[j] == s.sent[i].handle;
    var h := s.handles[j];
    assert ClientOk(steps, h.client, CacheKey(h.wanted));
    var k :| 0 <= k < |steps| && steps[k].AskStep? && steps[k].wanted == TargetOf(h.client);
    assert steps[k].wanted == h.wanted;
  }

  function AskedBy(step: Step): seq<(Wanted, Option<string>)> {
    if step.AskStep? then [(step.wanted, step.caller)] else []
  }

  function FailedBy(s: State, step: Step): seq<(Wanted, Option<string>)> {
    if step.CreatedStep? && !step.ok && step.i < |s.creating| then [s.creating[step.i]] else []
  }

  function AsksOf(steps: seq<Step>): seq<(Wanted, Option<string>)> {
    if steps == [] then [] else AsksOf(steps[..|steps| - 1]) + AskedBy(steps[|steps| - 1])
  }

  /** The creations that failed in a run, by what was asked for. */
  function FailuresOf(steps: seq<Step>): seq<(Wanted, Option<string>)> {
    if steps == [] then []
    else FailuresOf(steps[..|steps| - 1]) + FailedBy(Exec(steps[..|steps| - 1]), steps[|steps| - 1])
  }

  function GivenOf(handles: seq<Handle>): seq<(Wanted, Option<string>)> {
    if handles == [] then []
    else GivenOf(handles[..|handles| - 1]) + [(handles[|handles| - 1].wanted, handles[|handles| - 1].caller)]
  }

  lemma {:induction false} GivenMore(handles: seq<Handle>, h: Handle)
    ensures multiset(GivenOf(handles + [h])) == multiset(GivenOf(handles)) + multiset{(h.wanted, h.caller)}
  {
    assert (handles + [h])[..|handles|] == handles;
  }

  lemma {:induction false} TakenOut<T>(q: seq<T>, i: nat)
    requires i < |q|
    ensures multiset(q) == multiset(q[..i] + q[i + 1..]) + multiset{q[i]}
  {
    assert q == q[..i] + [q[i]] + q[i + 1..];
  }

  /** The asks that have been given a handle or wait for one. */
  function Open(s: State): multiset<(Wanted, Option<string>)> { multiset(GivenOf(s.handles)) + multiset(s.creating) }

  /** A step answers what it asks for, or leaves it under way; what it takes out of creation it answers or fails. */
  lemma {:induction false} StepAnswers(s: State, step: Step, s': State)
    requires s' == Next(s, step)
    ensures Open(s) + multiset(AskedBy(step)) == Open(s') + multiset(FailedBy(s, step))
  {
    match step
    case AskStep(w, caller) => AskAnswers(s, w, caller, s');
    case CreatedStep(i, ok) => if i < |s.creating| { CreatedAnswers(s, i, ok, s'); }
    case InvokeStep(h, given) =>
  }

  lemma {:induction false} AskAnswers(s: State, w: Wanted, caller: Option<string>, s': State)
    requires s' == Ask(s, w, caller)
    ensures Open(s') == Open(s) + multiset{(w, caller)}
  {
    if CacheKey(w) in s.cache { GivenMore(s.handles, Handle(s.cache[CacheKey(w)], w, caller)); }
  }

  lemma {:induction false} CreatedAnswers(s: State, i: nat, ok: bool, s': State)
    requires i < |s.creating| && s' == Created(s, i, ok)
    ensures Open(s) == Open(s') + if ok then multiset{} else multiset{s.creating[i]}
  {
    TakenOut(s.creating, i);
    if ok { GivenMore(s.handles, Handle(NewClient(s.creating[i].0), s.creating[i].0, s.creating[i].1)); }
  }

  lemma Balance<T>(asks: multiset<T>, before: multiset<T>, after: multiset<T>, fails: multiset<T>, ask: multiset<T>, fail: multiset<T>)
    requires asks == before + fails && before + ask == after + fail
    ensures asks + ask == after + (fails + fail)
  {
    assert asks + ask == (before + ask) + fails;
    assert (after + fail) + fails == after + (fails + fail);
  }

  /**
   In every run, each time a handler asks for a client it has been given a handle, for its own caller
   and target, or the creation of one for it is still under way or has failed: once.
   */
  lemma {:induction false} EveryAskIsAnswered(steps: seq<Step>)
    ensures multiset(AsksOf(steps)) == Open(Exec(steps)) + multiset(FailuresOf(steps))
    decreases |steps|
  {
    if steps != [] {
      var n := |steps| - 1;
      var s, s' := Exec(steps[..n]), Exec(steps);
      EveryAskIsAnswered(steps[..n]);
      StepAnswers(s, steps[n], s');
      Balance(multiset(AsksOf(steps[..n])), Open(s), Open(s'), multiset(FailuresOf(steps[..n])),
              multiset(AskedBy(steps[n])), multiset(FailedBy(s, steps[n])));
    }
  }

  /** In every run, a client that has been created is kept for its key, and no client is created for a key that has one. */
  lemma {:induction false} CreatedOnce(steps: seq<Step>, step: Step)
    ensures var s := Exec(steps); var s' := Next(s, step);
      && (step.CreatedStep? && step.ok && step.i < |s.creating| ==>
            var w := s.creating[step.i].0; CacheKey(w) in s'.cache && s'.cache[CacheKey(w)] == Client(w.deviceID, w.serviceID, w.identity, w.identity))
      && (|s'.creating| > |s.creating| ==> step.AskStep? && CacheKey(step.wanted) !in s.cache)
      && (forall k :: k in s.cache ==> k in s'.cache)
  {
  }

  /** In every run, separators or not, a caller with a key pays for its own invokes and for no others. */
  lemma {:induction false} CallerPays(steps: seq<Step>, i: nat)
    requires i < |Exec(steps).sent| && Exec(steps).sent[i].handle.caller.Some?
    ensures var x := Exec(steps).sent[i]; x.billingKey == x.handle.caller.value && x.handle in Exec(steps).handles
  {
    EveryRun(steps);
  }

  /** Some invoke of a run for the target `w` goes elsewhere. */
  ghost predicate Misdirects(steps: seq<Step>, w: Wanted) {
    exists i :: 0 <= i < |Exec(steps).sent| && Exec(steps).sent[i].handle.wanted == w && !Faithful(Exec(steps).sent[i])
  }

  /** The four steps that send the invoke for `w` to the client of `v`. */
  function Collision(v: Wanted, w: Wanted): seq<Step> {
    [AskStep(v, None), CreatedStep(0, true), AskStep(w, None), InvokeStep(1, None)]
  }

  lemma {:induction false} ExecNext(steps: seq<Step>, n: nat)
    requires n < |steps|
    ensures Exec(steps[..n + 1]) == Next(Exec(steps[..n]), steps[n])
  {
    assert steps[..n + 1][..n] == steps[..n];
  }

  lemma {:induction false} CollisionMisdirects(v: Wanted, w: Wanted)
    requires v != w && CacheKey(v) == CacheKey(w)
    ensures Misdirects(Collision(v, w), w)
  {
    var steps := Collision(v, w);
    ExecNext(steps, 0);
    assert Exec(steps[..1]) == State(map[], [(v, None)], [], []);
    ExecNext(steps, 1);
    assert Exec(steps[..2]) == State(map[CacheKey(v) := NewClient(v)], [], [Handle(NewClient(v), v, None)], []);
    ExecNext(steps, 2);
    assert Exec(steps[..3]).handles[1] == Handle(NewClient(v), w, None);
    ExecNext(steps, 3);
    assert steps[..4] == steps;
    assert Exec(steps).sent[0].handle.wanted == w && !Faithful(Exec(steps).sent[0]);
  }

  /** Some run sends an invoke for `w` to the client of another target exactly if `w` holds a separator. */
  lemma {:induction false} MisdirectsIffSeparator(w: Wanted)
    ensures (exists steps :: Misdirects(steps, w)) <==>
      '|' in w.deviceID || '|' in w.serviceID || '|' in w.identity
  {
    if Separable(w) {
      forall steps ensures !Misdirects(steps, w) {
        AloneIf(steps, w);
        forall i | 0 <= i < |Exec(steps).sent| && Exec(steps).sent[i].handle.wanted == w ensures Faithful(Exec(steps).sent[i]) {
          InvokesKeepIdentities(steps, i);
        }
      }
    } else {
      var v := KeyShared(w);
      CollisionMisdirects(v, w);
    }
  }

  // ----- in its own form -----

  /** A device with its cache of clients; `sent` records the invokes made. */
  class CtxDevice {
    var clients: map<string, Client>
    var creating: seq<(Wanted, Option<string>)>
    var handles: seq<Handle>
    var sent: seq<Sent>

    ghost function Cache(): State
      reads this
    {
      State(clients, creating, handles, sent)
    }

    constructor ()
      ensures Cache() == State(map[], [], [], [])
    {
      clients, creating, handles, sent := map[], [], [], [];
    }

    /** `ctx.serviceClient`: a cached client is wrapped at once, another is created first. */
    method ServiceClient(w: Wanted, caller: Option<string>)
      modifies `handles, `creating
      ensures Cache() == Ask(old(Cache()), w, caller)
    {
      var key := CacheKey(w);
      if key in clients {
        handles := handles + [Handle(clients[key], w, caller)];
        return;
      }
      creating := creating + [(w, caller)];
    }

    method OnCreated(i: nat, ok: bool)
      requires i < |creating|
      modifies `clients, `creating, `handles
      ensures Cache() == Created(old(Cache()), i, ok)
    {
      var (w, caller) := creating[i];
      creating := creating[..i] + creating[i + 1..];
      if !ok { return; }
      clients := clients[CacheKey(w) := NewClient(w)];
      handles := handles + [Handle(NewClient(w), w, caller)];
    }

    method Invoke(h: nat, given: Option<string>)
      requires h < |handles|
      modifies `sent
      ensures Cache() == Next(old(Cache()), InvokeStep(h, given))
    {
      sent := sent + [InvokeOf(handles[h], given)];
    }
  }
}
