/**
 The watcher of one worker (lib/worker-limits.js:8-53): a timed state machine over the ticks
 of its timer, the replies to its pings, and heap readings.  Times are in milliseconds and
 `Date.now()` never goes back.
 */
module Heartbeat {
  import opened Wrappers

  datatype Ping = Ping(id: nat, since: real)

  datatype KillReason = BlockedEventLoop | ExternalMemoryLimit

  datatype Limits = Limits(intervalMs: real, maxBlockMs: real, externalMb: real)

  datatype Watch = Watch(pending: Option<Ping>, lastTick: real, stopped: bool, killed: Option<KillReason>, pings: nat)

  /** What reaches the watcher, each at its own time. */
  datatype Event =
    | Tick(now: real, busy: bool)
    | Pong(now: real, id: nat)                        // the reply to a ping is handled
    | HeapRead(now: real, externalBytes: real)
    | Stop(now: real)                                 // the worker exits, or the watch is stopped

  function DefaultInterval(maxBlockMs: real): real {
    var half := (maxBlockMs / 2.0).Floor as real;
    var capped := if half < 1000.0 then half else 1000.0;
    if capped < 50.0 then 50.0 else capped
  }

  function Start(now: real): Watch { Watch(None, now, false, None, 0) }

  function Terminated(s: Watch, reason: KillReason): Watch {
    if s.stopped then s else s.(stopped := true, killed := Some(reason))
  }

  predicate Late(l: Limits, s: Watch, now: real) { now - s.lastTick > 2.0 * l.intervalMs }

  function OnTick(l: Limits, s: Watch, now: real, busy: bool): Watch {
    if s.stopped then s
    else
      var s1 := s.(lastTick := now);
      if s.pending.None? then s1.(pending := Some(Ping(s.pings, now)), pings := s.pings + 1)
      else if Late(l, s, now) || busy then s1.(pending := Some(Ping(s.pending.value.id, now)))
      else if now - s.pending.value.since > l.maxBlockMs then Terminated(s1, BlockedEventLoop)
      else s1
  }

  function Apply(l: Limits, s: Watch, ev: Event): Watch {
    match ev
    case Tick(now, busy) => OnTick(l, s, now, busy)
    case Pong(_, id) => if s.pending.Some? && s.pending.value.id == id then s.(pending := None) else s
    case HeapRead(_, bytes) => if bytes > l.externalMb * 1024.0 * 1024.0 then Terminated(s, ExternalMemoryLimit) else s
    case Stop(_) => s.(stopped := true)
  }

  function Exec(l: Limits, start: real, evs: seq<Event>): Watch {
    if evs == [] then Start(start) else Apply(l, Exec(l, start, evs[..|evs| - 1]), evs[|evs| - 1])
  }

  /** Time does not go back. */
  ghost predicate Timed(start: real, evs: seq<Event>) {
    && (forall i :: 0 <= i < |evs| ==> start <= evs[i].now)
    && (forall i, j :: 0 <= i <= j < |evs| ==> evs[i].now <= evs[j].now)
  }

  // ----- a kill is deserved -----

  /** The time of the last tick before event `i`. */
  function LastTick(start: real, evs: seq<Event>, i: nat): real
    requires i <= |evs|
  {
    if i == 0 then start else if evs[i - 1].Tick? then evs[i - 1].now else LastTick(start, evs, i - 1)
  }

  /** Ticks after event `j` up to event `i` were neither late nor busy. */
  ghost predicate OnTime(l: Limits, start: real, evs: seq<Event>, j: nat, i: nat)
    requires i <= |evs|
  {
    forall m :: j < m < i && evs[m].Tick? ==> evs[m].now - LastTick(start, evs, m) <= 2.0 * l.intervalMs && !evs[m].busy
  }

  ghost predicate Unanswered(evs: seq<Event>, id: nat, j: nat, i: nat)
    requires i <= |evs|
  {
    forall m :: j < m < i && evs[m].Pong? ==> evs[m].id != id
  }

  /** Since event `j`, a tick at `p.since`, ping `p` has been waiting through ticks that were all in order. */
  ghost predicate Waiting(l: Limits, start: real, evs: seq<Event>, p: Ping, j: nat, i: nat)
    requires i <= |evs|
  {
    j < i && evs[j].Tick? && evs[j].now == p.since && OnTime(l, start, evs, j, i) && Unanswered(evs, p.id, j, i)
  }

  lemma {:induction false} StateAt(l: Limits, start: real, evs: seq<Event>, i: nat)
    requires i <= |evs|
    ensures var s := Exec(l, start, evs[..i]);
      !s.stopped ==> s.lastTick == LastTick(start, evs, i)
    decreases i
  {
    if i > 0 {
      StateAt(l, start, evs, i - 1);
      assert evs[..i][..i - 1] == evs[..i - 1];
    }
  }

  lemma {:induction false} PendingSince(l: Limits, start: real, evs: seq<Event>, i: nat)
    requires i <= |evs|
    ensures var s := Exec(l, start, evs[..i]);
      !s.stopped && s.pending.Some? ==> exists j :: Waiting(l, start, evs, s.pending.value, j, i)
    decreases i
  {
    if i > 0 {
      PendingSince(l, start, evs, i - 1);
      StateAt(l, start, evs, i - 1);
      assert evs[..i][..i - 1] == evs[..i - 1];
      var before, s := Exec(l, start, evs[..i - 1]), Exec(l, start, evs[..i]);
      if !s.stopped && s.pending.Some? {
        var ev := evs[i - 1];
        if !ev.Tick? || (before.pending.Some? && !Late(l, before, ev.now) && !ev.busy) {
          var j :| Waiting(l, start, evs, s.pending.value, j, i - 1);
          assert Waiting(l, start, evs, s.pending.value, j, i);
        } else {
          assert Waiting(l, start, evs, s.pending.value, i - 1, i);
        }
      }
    }
  }

  /**
   A worker is killed as blocked only at a tick, and only if one ping had then gone unanswered
   for more than `maxBlockMs` through ticks none of which was late or busy.
   */
  lemma {:induction false} KilledOnlyIfBlocked(l: Limits, start: real, evs: seq<Event>, i: nat) returns (p: Ping, j: nat)
    requires i < |evs|
    requires Exec(l, start, evs[..i]).killed.None? && Exec(l, start, evs[..i + 1]).killed == Some(BlockedEventLoop)
    ensures evs[i].Tick?
    ensures Waiting(l, start, evs, p, j, i + 1) && evs[i].now - p.since > l.maxBlockMs
  {
    assert evs[..i + 1][..i] == evs[..i];
    var s := Exec(l, start, evs[..i]);
    PendingSince(l, start, evs, i);
    StateAt(l, start, evs, i);
    p := s.pending.value;
    j :| Waiting(l, start, evs, p, j, i);
  }

  // ----- a block is caught -----

  /** No tick is late or busy. */
  ghost predicate Regular(l: Limits, start: real, evs: seq<Event>) {
    forall m :: 0 <= m < |evs| && evs[m].Tick? ==> evs[m].now - LastTick(start, evs, m) <= 2.0 * l.intervalMs && !evs[m].busy
  }

  ghost predicate SilentAfter(evs: seq<Event>, t: real) { forall m :: 0 <= m < |evs| && evs[m].Pong? ==> evs[m].now <= t }

  lemma {:induction false} LastTickBound(start: real, evs: seq<Event>, i: nat)
    requires Timed(start, evs) && i <= |evs|
    ensures start <= LastTick(start, evs, i) && forall m :: i <= m < |evs| ==> LastTick(start, evs, i) <= evs[m].now
    decreases i
  {
    if i > 0 { LastTickBound(start, evs, i - 1); }
  }

  /** Once the worker is silent, its last ping is soon sent and its clock is never restarted. */
  ghost predicate Cornered(l: Limits, s: Watch, t: real) {
    if s.pending.None? then s.lastTick <= t
    else s.pending.value.since <= t + 2.0 * l.intervalMs && s.lastTick - s.pending.value.since <= l.maxBlockMs
  }

  lemma SilentStep(l: Limits, s: Watch, ev: Event, t: real)
    requires l.intervalMs >= 0.0 && l.maxBlockMs >= 0.0
    requires !s.stopped && !Apply(l, s, ev).stopped && Cornered(l, s, t) && s.lastTick <= ev.now
    requires ev.Tick? ==> !Late(l, s, ev.now) && !ev.busy
    requires ev.Pong? ==> ev.now <= t
    ensures Cornered(l, Apply(l, s, ev), t)
  {
  }

  lemma {:induction false} SilentPending(l: Limits, start: real, evs: seq<Event>, t: real, i: nat)
    requires Timed(start, evs) && Regular(l, start, evs) && SilentAfter(evs, t) && start <= t && l.intervalMs >= 0.0
    requires l.maxBlockMs >= 0.0 && i <= |evs|
    ensures var s := Exec(l, start, evs[..i]); !s.stopped ==> Cornered(l, s, t)
    decreases i
  {
    if i > 0 {
      SilentPending(l, start, evs, t, i - 1);
      StateAt(l, start, evs, i - 1);
      LastTickBound(start, evs, i - 1);
      assert evs[..i][..i - 1] == evs[..i - 1];
      var s := Exec(l, start, evs[..i - 1]);
      if !s.stopped && !Apply(l, s, evs[i - 1]).stopped { SilentStep(l, s, evs[i - 1], t); }
    }
  }

  /** The worker has not exited and the watch has not been stopped. */
  ghost predicate StillWatched(evs: seq<Event>) { forall m :: 0 <= m < |evs| ==> !evs[m].Stop? }

  ghost predicate WithinMemory(l: Limits, evs: seq<Event>) {
    forall m :: 0 <= m < |evs| && evs[m].HeapRead? ==> evs[m].externalBytes <= l.externalMb * 1024.0 * 1024.0
  }

  /** Only the two limits kill, and nothing else stops a watch that is not stopped. */
  lemma {:induction false} WhyStopped(l: Limits, start: real, evs: seq<Event>)
    requires StillWatched(evs)
    ensures var s := Exec(l, start, evs);
      && (s.stopped <==> s.killed.Some?)
      && (WithinMemory(l, evs) && s.killed.Some? ==> s.killed == Some(BlockedEventLoop))
    decreases |evs|
  {
    if evs != [] {
      var n := |evs| - 1;
      WhyStopped(l, start, evs[..n]);
      assert !evs[n].Stop? && (WithinMemory(l, evs) ==> WithinMemory(l, evs[..n]));
    }
  }

  lemma {:induction false} BlockStops(l: Limits, start: real, evs: seq<Event>, t: real, n: nat) returns (i: nat)
    requires Timed(start, evs) && Regular(l, start, evs) && SilentAfter(evs, t) && start <= t && l.intervalMs >= 0.0
    requires l.maxBlockMs >= 0.0
    requires n < |evs| && evs[n].Tick? && evs[n].now > t + l.maxBlockMs + 2.0 * l.intervalMs
    ensures i <= n && evs[i].now <= t + l.maxBlockMs + 4.0 * l.intervalMs
    ensures Exec(l, start, evs[..i + 1]).stopped
    decreases n
  {
    if LastTick(start, evs, n) > t + l.maxBlockMs + 2.0 * l.intervalMs {
      var m := TickBefore(start, evs, n);
      i := BlockStops(l, start, evs, t, m);
    } else {
      i := n;
      SilentPending(l, start, evs, t, n + 1);
      StateAt(l, start, evs, n + 1);
      assert LastTick(start, evs, n + 1) == evs[n].now;
    }
  }

  /**
   If ticks come at most 2 intervals apart, none busy, and the worker answers nothing after
   `t`, then by `t + maxBlockMs + 4 * interval` it is killed, unless it exited or the watch was
   stopped before, and killed as blocked if its memory stayed within the limit; provided the timer
   is still ticking after `t + maxBlockMs + 2 * interval`.
   */
  lemma {:induction false} BlockCaught(l: Limits, start: real, evs: seq<Event>, t: real, n: nat) returns (i: nat)
    requires Timed(start, evs) && Regular(l, start, evs) && SilentAfter(evs, t) && start <= t && l.intervalMs >= 0.0
    requires l.maxBlockMs >= 0.0
    requires n < |evs| && evs[n].Tick? && evs[n].now > t + l.maxBlockMs + 2.0 * l.intervalMs
    ensures i <= n && evs[i].now <= t + l.maxBlockMs + 4.0 * l.intervalMs
    ensures Exec(l, start, evs[..i + 1]).stopped
    ensures StillWatched(evs[..i + 1]) ==> Exec(l, start, evs[..i + 1]).killed.Some?
    ensures StillWatched(evs[..i + 1]) && WithinMemory(l, evs[..i + 1]) ==>
      Exec(l, start, evs[..i + 1]).killed == Some(BlockedEventLoop)
  {
    i := BlockStops(l, start, evs, t, n);
    var head := evs[..i + 1];
    if StillWatched(head) { WhyStopped(l, start, head); }
  }

  lemma {:induction false} TickBefore(start: real, evs: seq<Event>, n: nat) returns (m: nat)
    requires n <= |evs| && LastTick(start, evs, n) > start
    ensures m < n && evs[m].Tick? && evs[m].now == LastTick(start, evs, n)
    decreases n
  {
    if evs[n - 1].Tick? { m := n - 1; } else { m := TickBefore(start, evs, n - 1); }
  }

  /**
   A worker that is not stopped yet is killed for its memory exactly when a reading is over the limit;
   one that is stopped is never killed.
   */
  lemma {:induction false} MemoryKilledIff(l: Limits, start: real, evs: seq<Event>, i: nat)
    requires i < |evs|
    ensures var s, s' := Exec(l, start, evs[..i]), Exec(l, start, evs[..i + 1]);
      && (s.killed.None? && s'.killed == Some(ExternalMemoryLimit) <==>
            s.killed.None? && !s.stopped && evs[i].HeapRead? && evs[i].externalBytes > l.externalMb * 1048576.0)
      && (s.stopped || evs[i].Stop? ==> s'.stopped && s'.killed == s.killed)
  {
    assert evs[..i + 1][..i] == evs[..i];
  }

  /** The ping waited for is answered exactly by the reply to that very ping: a late reply to an earlier one is not taken for it. */
  lemma {:induction false} AnsweredIff(l: Limits, start: real, evs: seq<Event>, i: nat)
    requires i < |evs| && Exec(l, start, evs[..i]).pending.Some?
    ensures var s, s' := Exec(l, start, evs[..i]), Exec(l, start, evs[..i + 1]);
      s'.pending.None? <==> evs[i].Pong? && evs[i].id == s.pending.value.id
  {
    assert evs[..i + 1][..i] == evs[..i];
  }

  /**
   A tick pings the worker exactly if it is watched and has answered its last ping, under an id that
   no earlier ping had; the id still waited for is always that of the last ping.
   */
  lemma {:induction false} PingsIff(l: Limits, start: real, evs: seq<Event>, i: nat)
    requires i < |evs|
    ensures var s, s' := Exec(l, start, evs[..i]), Exec(l, start, evs[..i + 1]);
      && s'.pings == s.pings + (if evs[i].Tick? && !s.stopped && s.pending.None? then 1 else 0)
      && (s'.pings > s.pings ==> s'.pending == Some(Ping(s.pings, evs[i].now)))
      && (s.pending.Some? ==> s.pending.value.id == s.pings - 1)
  {
    assert evs[..i + 1][..i] == evs[..i];
    LastPing(l, start, evs[..i]);
  }

  lemma {:induction false} LastPing(l: Limits, start: real, evs: seq<Event>)
    ensures var s := Exec(l, start, evs); s.pending.Some? ==> s.pending.value.id == s.pings - 1
    decreases |evs|
  {
    if evs != [] { LastPing(l, start, evs[..|evs| - 1]); }
  }

  /** The default interval gives two ticks per `maxBlockMs` exactly if that is at least 100 ms. */
  lemma TwoTicksIff(maxBlockMs: real)
    ensures 2.0 * DefaultInterval(maxBlockMs) <= maxBlockMs <==> maxBlockMs >= 100.0
    ensures 50.0 <= DefaultInterval(maxBlockMs) <= 1000.0
  {
  }

  // ----- in its own form -----

  /** The closure variables of `watch`. */
  class Watcher {
    const limits: Limits
    var pending: Option<Ping>
    var lastTick: real
    var stopped: bool
    var killed: Option<KillReason>
    var pings: nat

    ghost function State(): Watch
      reads this
    {
      Watch(pending, lastTick, stopped, killed, pings)
    }

    constructor (limits: Limits, now: real)
      ensures State() == Start(now) && this.limits == limits
    {
      this.limits := limits;
      pending, lastTick, stopped, killed, pings := None, now, false, None, 0;
    }

    method Kill(reason: KillReason)
      modifies this
      ensures State() == Terminated(old(State()), reason)
    {
      if stopped { return; }
      stopped := true;
      killed := Some(reason);
    }

    method OnTimer(now: real, busy: bool)
      modifies this
      ensures State() == OnTick(limits, old(State()), now, busy)
    {
      if stopped { return; }
      var stalled := now - lastTick > 2.0 * limits.intervalMs;
      lastTick := now;
      if pending.Some? {
        if stalled || busy {
          pending := Some(Ping(pending.value.id, now));
        } else if now - pending.value.since > limits.maxBlockMs {
          Kill(BlockedEventLoop);
        }
      } else {
        pending := Some(Ping(pings, now));
        pings := pings + 1;
      }
    }

    method OnPong(now: real, id: nat)
      modifies this
      ensures State() == Apply(limits, old(State()), Pong(now, id))
    {
      if pending.Some? && pending.value.id == id { pending := None; }
    }

    method OnHeapStatistics(now: real, externalBytes: real)
      modifies this
      ensures State() == Apply(limits, old(State()), HeapRead(now, externalBytes))
    {
      if externalBytes > limits.externalMb * 1024.0 * 1024.0 { Kill(ExternalMemoryLimit); }
    }

    method StopWatching(now: real)
      modifies this
      ensures State() == Apply(limits, old(State()), Stop(now))
    {
      stopped := true;
    }
  }
}
