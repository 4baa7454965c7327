/**
 The results about brokering, over every run: a run is the sequence of states that any sequence
 of steps leads through.
 */
module PeerResults {
  import opened Wrappers
  import opened PeerBrokering
  import opened PeerSafety
  import opened PeerRequests
  import opened PeerCalls
  import opened PeerCompleteness

  ghost predicate Follows(s: Sys, step: Step, s': Sys) { Sound(s.ends) && s' == Next(s, step) }

  ghost predicate IsRun(ss: seq<Sys>, steps: seq<Step>) {
    |ss| == |steps| + 1 && ss[0] == Start() && forall i :: 0 <= i < |steps| ==> Follows(ss[i], steps[i], ss[i + 1])
  }

  /** No two workers call each other, and nothing is invalidated. */
  ghost predicate IsCalmRun(ss: seq<Sys>, steps: seq<Step>) {
    IsRun(ss, steps) && OneWay(ss[|steps|].main.registry) && forall i :: 0 <= i < |steps| ==> Calm(steps[i])
  }

  lemma {:induction false} RunIsExec(ss: seq<Sys>, steps: seq<Step>)
    requires IsRun(ss, steps)
    ensures Exec(steps) == ss[|steps|]
    decreases |steps|
  {
    if steps != [] {
      var n := |steps| - 1;
      assert IsRun(ss[..n + 1], steps[..n]);
      RunIsExec(ss[..n + 1], steps[..n]);
      assert Follows(ss[n], steps[n], ss[n + 1]);
      ExecLast(steps, ss[n], ss[n + 1]);
    }
  }

  lemma {:induction false} ExecLast(steps: seq<Step>, s: Sys, s': Sys)
    requires steps != [] && Exec(steps[..|steps| - 1]) == s && Follows(s, steps[|steps| - 1], s')
    ensures Exec(steps) == s'
  {
  }

  /**
   Each invoke a callee serves is for a device whose authorization had already passed under the
   registry entry that opened the channel it arrived on: with worker crashes, reloads,
   revocations, calls in both directions and invokes that module code posts itself.
   */
  lemma {:induction false} ServedOnlyIfAuthorized(ss: seq<Sys>, steps: seq<Step>, j: nat)
    requires IsRun(ss, steps) && j < |ss[|steps|].log| && ss[|steps|].log[j].Served?
    ensures var log := ss[|steps|].log;
      exists i, a, k :: 0 <= i < j && log[i] == Authorized(log[j].port, a, log[j].callee, Grant(k, log[j].device))
  {
    RunIsExec(ss, steps);
    EveryRunSafe(steps);
  }

  /** A callee that has handled a channel's Invalidate serves nothing more on that channel. */
  lemma {:induction false} RevokedServesNothing(ss: seq<Sys>, steps: seq<Step>, i: nat, j: nat)
    requires IsRun(ss, steps) && i < j < |ss[|steps|].log|
    requires ss[|steps|].log[i].Invalidated? && ss[|steps|].log[j].Served?
    ensures ss[|steps|].log[i].port != ss[|steps|].log[j].port
  {
    RunIsExec(ss, steps);
    EveryRunSafe(steps);
  }

  /**
   A denied recheck takes the channel it was for out of the registry, and no other, if it is still
   there, and both its workers are sent their Invalidate, the callee one that names the channel.
   */
  lemma {:induction false} RevocationReachesBoth(ss: seq<Sys>, steps: seq<Step>, s': Sys, r: Recheck)
    requires IsRun(ss, steps) && r in ss[|steps|].main.rechecks && Follows(ss[|steps|], RecheckedStep(r, false), s')
    ensures !(r.pair in s'.main.registry && s'.main.registry[r.pair].port == r.port)
    ensures var s := ss[|steps|]; !(r.pair in s.main.registry && s.main.registry[r.pair].port == r.port) ==>
      s'.main.registry == s.main.registry && s'.inbox == s.inbox
    ensures var s := ss[|steps|]; r.pair in s.main.registry && s.main.registry[r.pair].port == r.port ==>
      && s'.main.registry == s.main.registry - {r.pair}
      && Queue(s'.inbox, r.pair.one) == Queue(s.inbox, r.pair.one) + [Invalidate(r.pair.other, None)]
      && Queue(s'.inbox, r.pair.other) == Queue(s.inbox, r.pair.other) + [Invalidate(r.pair.one, Some(r.port))]
  {
    var s := ss[|steps|];
    if r.pair in s.main.registry { NeverToItself(ss, steps, r.pair); }
  }

  /** No worker is ever granted a channel to itself. */
  lemma {:induction false} NeverToItself(ss: seq<Sys>, steps: seq<Step>, p: Pair)
    requires IsRun(ss, steps) && p in ss[|steps|].main.registry
    ensures p.one != p.other
  {
    RunIsExec(ss, steps);
    EveryRunNoSelf(steps);
  }

  /** A worker has calls waiting for a device exactly while one request of its own for it is outstanding. */
  lemma {:induction false} WaitingIffOneOutstanding(ss: seq<Sys>, steps: seq<Step>, a: Worker, d: Device)
    requires IsRun(ss, steps)
    ensures At(a, d) in ss[|steps|].ends.waiting <==> Outstanding(ss[|steps|], a, d) == 1
    ensures At(a, d) !in ss[|steps|].ends.waiting <==> Outstanding(ss[|steps|], a, d) == 0
  {
    RunIsExec(ss, steps);
    EveryRunExact(steps, a, d);
  }

  /** No call is left waiting once no authorization is open and every running worker's queues are empty. */
  lemma {:induction false} NoCallStranded(ss: seq<Sys>, steps: seq<Step>, a: Worker, d: Device)
    requires IsRun(ss, steps) && ss[|steps|].main.checks == [] && a !in ss[|steps|].main.ended
    requires forall w :: w !in ss[|steps|].main.ended ==> Queue(ss[|steps|].inbox, w) == [] && Queue(ss[|steps|].outbox, w) == []
    ensures At(a, d) !in ss[|steps|].ends.waiting
  {
    RunIsExec(ss, steps);
    EveryRunExact(steps, a, d);
    NothingAwaited(steps, ss[|steps|], a, d);
  }

  /** Each call made is waiting in one queue position or settled by one event, and not both. */
  lemma {:induction false} EveryCallInOnePlace(ss: seq<Sys>, steps: seq<Step>)
    requires IsRun(ss, steps)
    ensures var s := ss[|steps|]; Placed(s.ends.waiting, s.log, s.ends.calls)
  {
    RunIsExec(ss, steps);
    EveryRunPlaced(steps);
  }

  /**
   Without invalidation, and if no two workers were granted channels to each other, no call is
   refused with PEER_NOT_GRANTED, sent to an end without a handler, or lost.
   */
  lemma {:induction false} NeverRefused(ss: seq<Sys>, steps: seq<Step>, ev: Event)
    requires IsCalmRun(ss, steps) && ev in ss[|steps|].log
    ensures !ev.Refused? && !ev.Misdirected? && !ev.Gone?
  {
    RunIsExec(ss, steps);
    EveryCalmRunComplete(steps);
  }

  /** In such a run, every invoke on the wire is for a device its callee allows, or will when it attaches the port. */
  lemma {:induction false} ReleasedOnlyWhenAdmitted(ss: seq<Sys>, steps: seq<Step>, p: Pair, d: Device)
    requires IsCalmRun(ss, steps) && p in ss[|steps|].main.registry
    requires d in Queue(ss[|steps|].wire, ss[|steps|].main.registry[p].port)
    ensures Admitted(ss[|steps|], p.one, p.other, d)
  {
    RunIsExec(ss, steps);
    EveryCalmRunComplete(steps);
    assert WireOk(ss[|steps|], p);
  }

  /** In such a run, a worker that handles a grant releases every call waiting for the device, in order, on the pair's port. */
  lemma {:induction false} GrantReleasesAll(ss: seq<Sys>, steps: seq<Step>, s': Sys, w: Worker, d: Device, b: Worker, p: Option<nat>)
    requires IsCalmRun(ss, steps) && Follows(ss[|steps|], WorkerStep(w), s')
    requires var s := ss[|steps|]; Queue(s.inbox, w) != [] && s.inbox[w][0] == ChannelGrant(d, b, p) && At(w, d) in s.ends.waiting
    ensures var s := ss[|steps|];
      && Pair(w, b) in s.main.registry && At(w, d) !in s'.ends.waiting
      && s'.log == s.log + Releases(s.ends.waiting[At(w, d)], s.main.registry[Pair(w, b)].port)
  {
    RunIsExec(ss, steps);
    EveryRunSafe(steps);
    EveryCalmRunComplete(steps);
    GrantReleases(ss[|steps|], s', w, d, b, p);
  }
}
