/**
 What happens after a module's worker exits unexpectedly (lib/module-supervisor.js:24-102): a
 restart with backoff, or suspension after repeated exits.  Records are objects, so each has
 an identity of its own; `current` is the table from names to records.  Times are in
 milliseconds and the clock never goes back.
 */
module Supervisor {
  import opened Wrappers

  const BACKOFF_BASE_MS := 1000
  const BACKOFF_MAX_MS := 60000
  const SUSPEND_AFTER := 3
  const WINDOW_MS := 10 * 60 * 1000

  type Name = string

  datatype RecordState = Running | Restarting | Suspended

  /** `timer` is the restart timer that is set, by its due time. */
  datatype Record = Record(name: Name, state: RecordState, exits: seq<int>, nextRestartAt: Option<int>, timer: Option<int>)

  /** History: what happened to each record; an exit with the restart it scheduled, if any. */
  datatype Event =
    | Exited(record: nat, at: int, delay: Option<int>)
    | Fired(record: nat, at: int)
    | Cleared(record: nat)
    | Tracked(record: nat)                   // a worker of the module has loaded
    | Halted(record: nat)                    // suspended because the sandbox refuses the module

  datatype Table = Table(current: map<Name, nat>, records: seq<Record>, log: seq<Event>)

  function Start(): Table { Table(map[], [], []) }

  function Power(n: nat): int { if n == 0 then 1 else 2 * Power(n - 1) }

  function BackoffFor(nthExit: nat): int
    requires nthExit > 0
  {
    var delay := BACKOFF_BASE_MS * Power(nthExit - 1);
    if delay < BACKOFF_MAX_MS then delay else BACKOFF_MAX_MS
  }

  function RecordFor(t: Table, name: Name): Table {
    if name in t.current then t
    else t.(current := t.current[name := |t.records|], records := t.records + [Record(name, Running, [], None, None)])
  }

  function Recent(exits: seq<int>, now: int): seq<int> {
    if exits == [] then []
    else Recent(exits[..|exits| - 1], now) + if now - exits[|exits| - 1] <= WINDOW_MS then [exits[|exits| - 1]] else []
  }

  /** The record after one more exit. */
  function WithExit(r: Record, now: int): Record {
    var exits := Recent(r.exits, now) + [now];
    if |exits| >= SUSPEND_AFTER then r.(exits := exits, state := Suspended, nextRestartAt := None, timer := None)
    else
      var due := now + BackoffFor(|exits|);
      r.(exits := exits, state := Restarting, nextRestartAt := Some(due), timer := Some(due))
  }

  predicate Sound(t: Table) { forall n :: n in t.current ==> t.current[n] < |t.records| }

  function Track(t: Table, name: Name): Table
    requires Sound(t)
  {
    var t1 := RecordFor(t, name);
    var k := t1.current[name];
    t1.(records := t1.records[k := t1.records[k].(state := Running, nextRestartAt := None)], log := t1.log + [Tracked(k)])
  }

  function Exit(t: Table, name: Name, now: int): Table
    requires Sound(t)
  {
    var t1 := RecordFor(t, name);
    var k := t1.current[name];
    var r := WithExit(t1.records[k], now);
    t1.(records := t1.records[k := r],
        log := t1.log + [Exited(k, now, if r.timer.Some? then Some(r.timer.value - now) else None)])
  }

  function Clear(t: Table, name: Name): Table
    requires Sound(t)
  {
    if name !in t.current then t
    else
      var k := t.current[name];
      t.(current := t.current - {name}, records := t.records[k := t.records[k].(timer := None)], log := t.log + [Cleared(k)])
  }

  function Suspend(t: Table, name: Name): Table
    requires Sound(t)
  {
    if name !in t.current then t
    else
      var k := t.current[name];
      t.(records := t.records[k := t.records[k].(timer := None, state := Suspended, nextRestartAt := None)],
         log := t.log + [Halted(k)])
  }

  /** The timer of record `k` goes off: it restarts the module only if the record says so. */
  function Fire(t: Table, k: nat, now: int): Table
    requires k < |t.records|
  {
    var r := t.records[k];
    if r.timer.None? || now < r.timer.value then t
    else
      t.(records := t.records[k := r.(timer := None)],
         log := if r.state == Restarting then t.log + [Fired(k, now)] else t.log)
  }

  datatype Step =
    | TrackStep(name: Name)
    | ExitStep(name: Name)
    | ClearStep(name: Name)
    | SuspendStep(name: Name)
    | FireStep(k: nat)

  /** A run: each step with the time it happens at. */
  datatype Timed = Timed(now: int, step: Step)

  function Next(t: Table, x: Timed): Table
    requires Sound(t)
  {
    match x.step
    case TrackStep(name) => Track(t, name)
    case ExitStep(name) => Exit(t, name, x.now)
    case ClearStep(name) => Clear(t, name)
    case SuspendStep(name) => Suspend(t, name)
    case FireStep(k) => if k < |t.records| then Fire(t, k, x.now) else t
  }

  function Exec(xs: seq<Timed>): (t: Table)
    ensures Sound(t)
    decreases |xs|
  {
    if xs == [] then Start() else Next(Exec(xs[..|xs| - 1]), xs[|xs| - 1])
  }

  ghost predicate InOrder(xs: seq<Timed>) { forall i, j :: 0 <= i <= j < |xs| ==> xs[i].now <= xs[j].now }

  // ----- the exits of one record -----

  /** The times of the exits of record `k`, in order. */
  function ExitTimes(log: seq<Event>, k: nat): seq<int> {
    if log == [] then []
    else
      var ev := log[|log| - 1];
      ExitTimes(log[..|log| - 1], k) + if ev.Exited? && ev.record == k then [ev.at] else []
  }

  ghost predicate Sorted(times: seq<int>) { forall i, j :: 0 <= i <= j < |times| ==> times[i] <= times[j] }

  ghost predicate Suffix(rest: seq<int>, all: seq<int>) {
    |rest| <= |all| && forall i :: 0 <= i < |rest| ==> rest[i] == all[|all| - |rest| + i]
  }

  /** `exits` is what is left of `all` once everything older than the window has been dropped. */
  ghost predicate Kept(exits: seq<int>, all: seq<int>) {
    && Sorted(all) && Suffix(exits, all)
    && forall i :: 0 <= i < |all| - |exits| ==> all[|all| - 1] - all[i] > WINDOW_MS
  }

  lemma {:induction false} RecentIsSuffix(exits: seq<int>, now: int)
    requires Sorted(exits)
    ensures Suffix(Recent(exits, now), exits)
    ensures forall i :: 0 <= i < |exits| - |Recent(exits, now)| ==> now - exits[i] > WINDOW_MS
    decreases |exits|
  {
    if exits != [] {
      var n := |exits| - 1;
      if now - exits[n] > WINDOW_MS {
        forall i | 0 <= i < |exits| ensures now - exits[i] > WINDOW_MS { assert exits[i] <= exits[n]; }
        RecentNone(exits, now);
      } else {
        var front := exits[..n];
        RecentIsSuffix(front, now);
        SuffixPush(Recent(front, now), front, exits[n]);
        assert exits == front + [exits[n]];
      }
    }
  }

  lemma {:induction false} SuffixPush(rest: seq<int>, all: seq<int>, x: int)
    requires Suffix(rest, all)
    ensures Suffix(rest + [x], all + [x])
  {
  }

  lemma {:induction false} RecentNone(exits: seq<int>, now: int)
    requires forall i :: 0 <= i < |exits| ==> now - exits[i] > WINDOW_MS
    ensures Recent(exits, now) == []
    decreases |exits|
  {
    if exits != [] { RecentNone(exits[..|exits| - 1], now); }
  }

  lemma {:induction false} KeptAfterExit(exits: seq<int>, all: seq<int>, now: int)
    requires Kept(exits, all) && (all != [] ==> all[|all| - 1] <= now)
    ensures Kept(Recent(exits, now) + [now], all + [now])
  {
    SuffixSorted(exits, all);
    RecentIsSuffix(exits, now);
    KeptSuffix(exits, all, now, Recent(exits, now));
  }

  lemma {:induction false} SuffixSorted(rest: seq<int>, all: seq<int>)
    requires Suffix(rest, all) && Sorted(all)
    ensures Sorted(rest)
  {
  }

  lemma {:induction false} KeptSuffix(exits: seq<int>, all: seq<int>, now: int, rest: seq<int>)
    requires Kept(exits, all) && (all != [] ==> all[|all| - 1] <= now) && Suffix(rest, exits)
    requires forall i :: 0 <= i < |exits| - |rest| ==> now - exits[i] > WINDOW_MS
    ensures Kept(rest + [now], all + [now])
  {
    var all', exits', m := all + [now], rest + [now], |all| - |exits|;
    assert Sorted(all');
    forall i | 0 <= i < |exits'| ensures exits'[i] == all'[|all'| - |exits'| + i] {
      if i < |rest| { assert rest[i] == exits[|exits| - |rest| + i]; }
    }
    forall i | 0 <= i < |all'| - |exits'| ensures now - all'[i] > WINDOW_MS {
      if i >= m { assert exits[i - m] == all[i]; }
    }
  }

  // ----- the invariant -----

  predicate About(ev: Event, k: nat) { ev.record == k }

  /** Event `i` scheduled the restart due at `due`, and nothing has happened to the record since. */
  ghost predicate Scheduled(log: seq<Event>, k: nat, i: nat, due: int, n: nat)
    requires n <= |log|
  {
    && i < n && log[i].Exited? && log[i].record == k && log[i].delay == Some(due - log[i].at)
    && forall j :: i < j < n ==> !About(log[j], k)
  }

  /** A record waiting for a restart has its timer set by its last event. */
  ghost predicate Armed(log: seq<Event>, r: Record, k: nat) {
    r.timer.Some? && r.state == Restarting ==> exists i :: Scheduled(log, k, i, r.timer.value, |log|)
  }

  /** And one whose last event scheduled a restart is waiting for it. */
  ghost predicate Waiting(log: seq<Event>, r: Record, k: nat) {
    forall i, due :: Scheduled(log, k, i, due, |log|) ==> r.timer == Some(due) && r.state == Restarting
  }

  /** The last time that anybody said what state record `k` is in. */
  function LastWord(log: seq<Event>, k: nat): Option<Event> {
    if log == [] then None
    else
      var ev := log[|log| - 1];
      if ev.record == k && (ev.Exited? || ev.Tracked? || ev.Halted?) then Some(ev) else LastWord(log[..|log| - 1], k)
  }

  function StateAfter(word: Option<Event>): RecordState {
    if word.None? || word.value.Tracked? then Running
    else if word.value.Exited? && word.value.delay.Some? then Restarting
    else Suspended
  }

  function RestartAfter(word: Option<Event>): Option<int> {
    if word.Some? && word.value.Exited? && word.value.delay.Some? then Some(word.value.at + word.value.delay.value) else None
  }

  ghost predicate Said(log: seq<Event>, r: Record, k: nat) {
    r.state == StateAfter(LastWord(log, k)) && r.nextRestartAt == RestartAfter(LastWord(log, k))
  }

  /** Only a current record has a timer, and a cleared one is current no more. */
  ghost predicate Owned(current: map<Name, nat>, log: seq<Event>, r: Record, k: nat) {
    && (r.timer.Some? ==> Lookup(current, r.name) == Some(k))
    && (Cleared(k) in log ==> Lookup(current, r.name) != Some(k))
  }

  ghost predicate RecordOk(t: Table, k: nat)
    requires k < |t.records|
  {
    && Kept(t.records[k].exits, ExitTimes(t.log, k))
    && Armed(t.log, t.records[k], k) && Owned(t.current, t.log, t.records[k], k)
    && Waiting(t.log, t.records[k], k) && Said(t.log, t.records[k], k)
  }

  function Lookup(current: map<Name, nat>, name: Name): Option<nat> { if name in current then Some(current[name]) else None }

  /** Three exits of a record, the last of which schedules a restart, span more than the window. */
  ghost predicate Budget(log: seq<Event>) {
    forall i, j, k | 0 <= i < j < k < |log| && log[i].Exited? && log[j].Exited? && log[k].Exited?
      && log[i].record == log[j].record == log[k].record && log[k].delay.Some? :: log[k].at - log[i].at > WINDOW_MS
  }

  ghost predicate Delays(log: seq<Event>) {
    forall i :: 0 <= i < |log| && log[i].Exited? && log[i].delay.Some? ==> log[i].delay.value in {1000, 2000}
  }

  /** Every restart that fired was due, scheduled by the record's last event before it; no cleared record ever fires. */
  ghost predicate Firings(log: seq<Event>) {
    forall j :: 0 <= j < |log| && log[j].Fired? ==>
      && (exists i, due :: Scheduled(log, log[j].record, i, due, j) && due <= log[j].at)
      && (forall i :: 0 <= i < j ==> log[i] != Cleared(log[j].record))
  }

  ghost predicate TableOk(t: Table, now: int) {
    && Sound(t)
    && (forall n :: n in t.current ==> t.records[t.current[n]].name == n)
    && (forall i :: 0 <= i < |t.log| ==> t.log[i].record < |t.records|)
    && (forall i :: 0 <= i < |t.log| && t.log[i].Exited? ==> t.log[i].at <= now)
  }

  ghost predicate Inv(t: Table, now: int) {
    && TableOk(t, now) && (forall k :: 0 <= k < |t.records| ==> RecordOk(t, k))
    && Budget(t.log) && Delays(t.log) && Firings(t.log)
  }

  // exits in the log and their places in ExitTimes

  lemma {:induction false} ExitPlace(log: seq<Event>, i: nat) returns (p: nat)
    requires i < |log| && log[i].Exited?
    ensures p == |ExitTimes(log[..i], log[i].record)|
    ensures p < |ExitTimes(log, log[i].record)| && ExitTimes(log, log[i].record)[p] == log[i].at
    decreases |log|
  {
    var n := |log| - 1;
    if i == n {
      p := |ExitTimes(log[..i], log[i].record)|;
    } else {
      assert log[..n][..i] == log[..i];
      p := ExitPlace(log[..n], i);
    }
  }

  lemma {:induction false} ExitTimesGrow(log: seq<Event>, i: nat, j: nat, k: nat)
    requires i <= j <= |log|
    ensures |ExitTimes(log[..i], k)| <= |ExitTimes(log[..j], k)|
    ensures i < j && log[i].Exited? && log[i].record == k ==> |ExitTimes(log[..i], k)| < |ExitTimes(log[..j], k)|
    decreases j
  {
    if i < j {
      ExitTimesGrow(log, i, j - 1, k);
      assert log[..j][..j - 1] == log[..j - 1];
    }
  }

  lemma {:induction false} ExitTimesBound(log: seq<Event>, k: nat, now: int)
    requires forall i :: 0 <= i < |log| && log[i].Exited? ==> log[i].at <= now
    ensures forall p :: 0 <= p < |ExitTimes(log, k)| ==> ExitTimes(log, k)[p] <= now
    decreases |log|
  {
    if log != [] { ExitTimesBound(log[..|log| - 1], k, now); }
  }

  lemma {:induction false} NoExits(log: seq<Event>, k: nat)
    requires forall i :: 0 <= i < |log| ==> log[i].record != k
    ensures ExitTimes(log, k) == [] && LastWord(log, k) == None
    decreases |log|
  {
    if log != [] { NoExits(log[..|log| - 1], k); }
  }

  // ----- the steps -----

  lemma {:induction false} RecordForKeeps(t: Table, name: Name, now: int)
    requires Inv(t, now)
    ensures Inv(RecordFor(t, name), now) && name in RecordFor(t, name).current
    ensures RecordFor(t, name).log == t.log
  {
    if name !in t.current {
      var t', n := RecordFor(t, name), |t.records|;
      forall k | 0 <= k < |t'.records| ensures RecordOk(t', k) {
        if k < n { assert RecordOk(t, k); NewNameKeeps(t, t', k, name); } else { NoExits(t.log, k); }
      }
    }
  }

  lemma {:induction false} NewNameKeeps(t: Table, t': Table, k: nat, name: Name)
    requires k < |t.records| && RecordOk(t, k) && name !in t.current && t' == RecordFor(t, name)
    ensures RecordOk(t', k)
  {
  }

  /** Nothing is logged; one record loses its timer. */
  lemma {:induction false} ChangeKeeps(t: Table, t': Table, k: nat, now: int)
    requires Inv(t, now) && k < |t.records| == |t'.records| && t' == t.(records := t.records[k := t'.records[k]])
    requires t'.records[k] == t.records[k].(timer := None) && t.records[k].state != Restarting
    ensures Inv(t', now)
  {
    forall j | 0 <= j < |t'.records| ensures RecordOk(t', j) { assert RecordOk(t, j); }
  }

  lemma {:induction false} OthersKeep(t: Table, t': Table, ev: Event, j: nat)
    requires j < |t.records| == |t'.records| && RecordOk(t, j) && t'.records[j] == t.records[j]
    requires t'.log == t.log + [ev] && ev.record != j
    requires Lookup(t'.current, t.records[j].name) == Lookup(t.current, t.records[j].name)
    ensures RecordOk(t', j)
  {
    ArmedGrows(t.log, ev, t.records[j], j);
    WaitingGrows(t.log, ev, t.records[j], j);
    assert t'.log[..|t.log|] == t.log;
  }

  lemma {:induction false} WaitingGrows(log: seq<Event>, ev: Event, r: Record, j: nat)
    requires Waiting(log, r, j) && ev.record != j
    ensures Waiting(log + [ev], r, j) && LastWord(log + [ev], j) == LastWord(log, j)
  {
    assert (log + [ev])[..|log|] == log;
    forall i, due | Scheduled(log + [ev], j, i, due, |log + [ev]|) ensures r.timer == Some(due) && r.state == Restarting {
      assert forall x :: 0 <= x < |log| ==> (log + [ev])[x] == log[x];
      assert Scheduled(log, j, i, due, |log|);
    }
  }

  /** Once something else has happened to a record it no longer waits for a restart. */
  lemma {:induction false} WaitingEnds(log: seq<Event>, ev: Event, r: Record, k: nat)
    requires ev.record == k && !ev.Exited?
    ensures Waiting(log + [ev], r, k)
    ensures LastWord(log + [ev], k) == if ev.Tracked? || ev.Halted? then Some(ev) else LastWord(log, k)
  {
    assert (log + [ev])[..|log|] == log && (log + [ev])[|log|] == ev;
  }

  /** An event about another record leaves this one's timer scheduled. */
  lemma {:induction false} ArmedGrows(log: seq<Event>, ev: Event, r: Record, j: nat)
    requires Armed(log, r, j) && ev.record != j
    ensures Armed(log + [ev], r, j)
  {
    if r.timer.Some? && r.state == Restarting {
      var i :| Scheduled(log, j, i, r.timer.value, |log|);
      assert Scheduled(log + [ev], j, i, r.timer.value, |log + [ev]|);
    }
  }

  lemma {:induction false} FiringsGrow(log: seq<Event>, ev: Event)
    requires Firings(log)
    requires ev.Fired? ==>
      && (exists i, due :: Scheduled(log, ev.record, i, due, |log|) && due <= ev.at)
      && Cleared(ev.record) !in log
    ensures Firings(log + [ev])
  {
    var log' := log + [ev];
    forall j | 0 <= j < |log'| && log'[j].Fired?
      ensures exists i, due :: Scheduled(log', log'[j].record, i, due, j) && due <= log'[j].at
    {
      var i, due :| Scheduled(log, log'[j].record, i, due, j) && due <= log'[j].at;
      assert Scheduled(log', log'[j].record, i, due, j);
    }
  }

  lemma {:induction false} BudgetGrow(t: Table, k: nat, now: int, delay: Option<int>)
    requires Budget(t.log) && k < |t.records| && Kept(t.records[k].exits, ExitTimes(t.log, k))
    requires forall i :: 0 <= i < |t.log| && t.log[i].Exited? ==> t.log[i].at <= now
    requires delay.Some? ==> |Recent(t.records[k].exits, now)| < 2
    ensures Budget(t.log + [Exited(k, now, delay)])
  {
    var log' := t.log + [Exited(k, now, delay)];
    if delay.Some? {
      var all := ExitTimes(t.log, k);
      ExitTimesBound(t.log, k, now);
      KeptAfterExit(t.records[k].exits, all, now);
      forall i, j | 0 <= i < j < |t.log| && t.log[i].Exited? && t.log[j].Exited? && t.log[i].record == t.log[j].record == k
        ensures now - t.log[i].at > WINDOW_MS
      {
        var p := ExitPlace(t.log, i);
        var q := ExitPlace(t.log, j);
        ExitTimesGrow(t.log, i, j, k);
        assert (all + [now])[p] == t.log[i].at;
      }
    }
  }

  /** One event about record `k` is logged and only that record changes. */
  lemma {:induction false} EventKeeps(t: Table, t': Table, k: nat, ev: Event, now: int)
    requires Inv(t, now) && k < |t.records| == |t'.records| && ev.record == k && (ev.Exited? ==> ev.at <= now)
    requires t' == t.(records := t.records[k := t'.records[k]], log := t.log + [ev])
    requires t'.records[k].name == t.records[k].name && RecordOk(t', k)
    requires Budget(t'.log) && Delays(t'.log) && Firings(t'.log)
    ensures Inv(t', now)
  {
    forall j | 0 <= j < |t'.records| ensures RecordOk(t', j) {
      assert RecordOk(t, j);
      if j != k { OthersKeep(t, t', ev, j); }
    }
  }

  lemma {:induction false} ExitRecord(t: Table, t': Table, k: nat, ev: Event, now: int)
    requires TableOk(t, now) && k < |t.records| == |t'.records| && RecordOk(t, k) && Lookup(t.current, t.records[k].name) == Some(k)
    requires t'.current == t.current && t'.records[k] == WithExit(t.records[k], now) && t'.log == t.log + [ev]
    requires ev == Exited(k, now, if t'.records[k].timer.Some? then Some(t'.records[k].timer.value - now) else None)
    ensures RecordOk(t', k)
  {
    assert t'.log[..|t.log|] == t.log;
    ExitTimesBound(t.log, k, now);
    KeptAfterExit(t.records[k].exits, ExitTimes(t.log, k), now);
    ExitWaits(t.log, ev, t.records[k], k, now);
    if t'.records[k].timer.Some? { assert Scheduled(t'.log, k, |t.log|, t'.records[k].timer.value, |t'.log|); }
  }

  lemma {:induction false} ExitWaits(log: seq<Event>, ev: Event, r: Record, k: nat, now: int)
    requires var r' := WithExit(r, now); ev == Exited(k, now, if r'.timer.Some? then Some(r'.timer.value - now) else None)
    ensures Waiting(log + [ev], WithExit(r, now), k) && Said(log + [ev], WithExit(r, now), k)
  {
    assert (log + [ev])[..|log|] == log && (log + [ev])[|log|] == ev;
    forall i, due | Scheduled(log + [ev], k, i, due, |log + [ev]|) ensures i == |log| { assert About((log + [ev])[|log|], k); }
  }

  lemma {:induction false} ExitKeeps(t: Table, k: nat, name: Name, now: int)
    requires Inv(t, now) && name in t.current && t.current[name] == k
    ensures Inv(Exit(t, name, now), now)
  {
    var t' := Exit(t, name, now);
    var ev := t'.log[|t.log|];
    assert RecordOk(t, k);
    BackoffIs();
    BudgetGrow(t, k, now, ev.delay);
    FiringsGrow(t.log, ev);
    ExitRecord(t, t', k, ev, now);
    EventKeeps(t, t', k, ev, now);
  }

  lemma BackoffIs()
    ensures BackoffFor(1) == 1000 && BackoffFor(2) == 2000
  {
  }

  lemma {:induction false} ClearKeeps(t: Table, name: Name, now: int)
    requires Inv(t, now) && name in t.current
    ensures Inv(Clear(t, name), now)
  {
    var t', k := Clear(t, name), t.current[name];
    assert t'.log[..|t.log|] == t.log;
    FiringsGrow(t.log, Cleared(k));
    WaitingEnds(t.log, Cleared(k), t'.records[k], k);
    forall j | 0 <= j < |t'.records| ensures RecordOk(t', j) {
      assert RecordOk(t, j);
      if j != k { ClearedOther(t, t', k, j); }
    }
  }

  lemma {:induction false} ClearedOther(t: Table, t': Table, k: nat, j: nat)
    requires k < |t.records| && j < |t.records| && j != k && RecordOk(t, j)
    requires Lookup(t.current, t.records[k].name) == Some(k)
    requires t' == t.(current := t.current - {t.records[k].name}, records := t'.records, log := t.log + [Cleared(k)])
    requires |t'.records| == |t.records| && t'.records[j] == t.records[j]
    ensures RecordOk(t', j)
  {
    ArmedGrows(t.log, Cleared(k), t.records[j], j);
    WaitingGrows(t.log, Cleared(k), t.records[j], j);
    assert t'.log[..|t.log|] == t.log;
    assert Owned(t'.current, t'.log, t.records[j], j);
  }

  lemma {:induction false} FireKeeps(t: Table, k: nat, now: int)
    requires Inv(t, now) && k < |t.records|
    ensures Inv(Fire(t, k, now), now)
  {
    var t', r := Fire(t, k, now), t.records[k];
    if r.timer.Some? && now >= r.timer.value {
      assert RecordOk(t, k);
      if r.state != Restarting {
        ChangeKeeps(t, t', k, now);
      } else {
        var ev := Fired(k, now);
        var i :| Scheduled(t.log, k, i, r.timer.value, |t.log|);
        FiringsGrow(t.log, ev);
        NoExitLogged(t.log, ev);
        FireRecord(t, t', k, ev);
        EventKeeps(t, t', k, ev, now);
      }
    }
  }

  lemma {:induction false} NoExitLogged(log: seq<Event>, ev: Event)
    requires Budget(log) && Delays(log) && !ev.Exited?
    ensures Budget(log + [ev]) && Delays(log + [ev])
  {
  }

  lemma {:induction false} FireRecord(t: Table, t': Table, k: nat, ev: Event)
    requires k < |t.records| == |t'.records| && RecordOk(t, k) && ev.Fired?
    requires t'.current == t.current && t'.records[k] == t.records[k].(timer := None) && t'.log == t.log + [ev] && ev.record == k
    ensures RecordOk(t', k)
  {
    WaitingEnds(t.log, ev, t'.records[k], k);
  }

  /** A record stops waiting for a restart: it is running, or suspended. */
  lemma {:induction false} StopKeeps(t: Table, t': Table, k: nat, ev: Event, now: int)
    requires Inv(t, now) && k < |t.records| == |t'.records| && Lookup(t.current, t.records[k].name) == Some(k)
    requires ev == Tracked(k) || ev == Halted(k)
    requires t' == t.(records := t.records[k := t'.records[k]], log := t.log + [ev])
    requires t'.records[k].name == t.records[k].name && t'.records[k].exits == t.records[k].exits
    requires t'.records[k].state == (if ev.Tracked? then Running else Suspended) && t'.records[k].nextRestartAt == None
    ensures Inv(t', now)
  {
    assert RecordOk(t, k);
    WaitingEnds(t.log, ev, t'.records[k], k);
    NoExitLogged(t.log, ev);
    FiringsGrow(t.log, ev);
    assert t'.log[..|t.log|] == t.log;
    EventKeeps(t, t', k, ev, now);
  }

  lemma LaterOk(t: Table, now: int, later: int)
    requires Inv(t, now) && now <= later
    ensures Inv(t, later)
  {
  }

  lemma {:induction false} NextKeeps(t: Table, x: Timed)
    requires Inv(t, x.now)
    ensures Inv(Next(t, x), x.now)
  {
    match x.step
    case TrackStep(name) =>
      RecordForKeeps(t, name, x.now);
      var t1 := RecordFor(t, name);
      StopKeeps(t1, Next(t, x), t1.current[name], Tracked(t1.current[name]), x.now);
    case ExitStep(name) =>
      RecordForKeeps(t, name, x.now);
      var t1 := RecordFor(t, name);
      assert Next(t, x) == Exit(t1, name, x.now);
      ExitKeeps(t1, t1.current[name], name, x.now);
    case ClearStep(name) => if name in t.current { ClearKeeps(t, name, x.now); }
    case SuspendStep(name) =>
      if name in t.current { StopKeeps(t, Next(t, x), t.current[name], Halted(t.current[name]), x.now); }
    case FireStep(k) => if k < |t.records| { FireKeeps(t, k, x.now); }
  }

  lemma {:induction false} EveryRun(xs: seq<Timed>)
    requires InOrder(xs)
    ensures xs != [] ==> Inv(Exec(xs), xs[|xs| - 1].now)
    ensures xs == [] ==> forall now :: Inv(Exec(xs), now)
    decreases |xs|
  {
    if xs != [] {
      var n := |xs| - 1;
      EveryRun(xs[..n]);
      if n > 0 { LaterOk(Exec(xs[..n]), xs[n - 1].now, xs[n].now); }
      NextKeeps(Exec(xs[..n]), xs[n]);
    }
  }

  // ----- the results -----

  /** In every run, of three exits of one record within the window the last schedules no restart. */
  lemma {:induction false} RestartBudget(xs: seq<Timed>, i: nat, j: nat, k: nat)
    requires InOrder(xs)
    requires var log := Exec(xs).log;
      && i < j < k < |log| && log[i].Exited? && log[j].Exited? && log[k].Exited?
      && log[i].record == log[j].record == log[k].record && log[k].at - log[i].at <= WINDOW_MS
    ensures Exec(xs).log[k].delay.None?
  {
    EveryRun(xs);
  }

  /** In every run, every restart is scheduled one or two seconds ahead. */
  lemma {:induction false} RestartDelays(xs: seq<Timed>, i: nat)
    requires InOrder(xs) && i < |Exec(xs).log| && Exec(xs).log[i].Exited? && Exec(xs).log[i].delay.Some?
    ensures Exec(xs).log[i].delay.value in {1000, 2000}
  {
    EveryRun(xs);
  }

  /**
   In every run, a restart fires only for the last exit of its record, once it is due, with
   nothing in between (another exit, a clear, a load, a suspension, an earlier firing), and
   never for a record that has been cleared.
   */
  lemma {:induction false} FiresOnlyWhenScheduled(xs: seq<Timed>, j: nat) returns (i: nat, due: int)
    requires InOrder(xs) && j < |Exec(xs).log| && Exec(xs).log[j].Fired?
    ensures Scheduled(Exec(xs).log, Exec(xs).log[j].record, i, due, j) && due <= Exec(xs).log[j].at
    ensures forall i :: 0 <= i < j ==> Exec(xs).log[i] != Cleared(Exec(xs).log[j].record)
  {
    EveryRun(xs);
    var log := Exec(xs).log;
    i, due :| Scheduled(log, log[j].record, i, due, j) && due <= log[j].at;
  }

  /** How many exits of record `k` there were in the ten minutes up to `now`. */
  function ExitsWithin(log: seq<Event>, k: nat, now: int): nat {
    if log == [] then 0
    else
      var ev := log[|log| - 1];
      ExitsWithin(log[..|log| - 1], k, now) + if ev.Exited? && ev.record == k && now - ev.at <= 600000 then 1 else 0
  }

  /** The times that are within the window. */
  function Within(times: seq<int>, now: int): nat {
    if times == [] then 0 else Within(times[..|times| - 1], now) + if now - times[|times| - 1] <= WINDOW_MS then 1 else 0
  }

  lemma {:induction false} WithinPush(times: seq<int>, x: int, now: int)
    ensures Within(times + [x], now) == Within(times, now) + if now - x <= WINDOW_MS then 1 else 0
  {
    assert (times + [x])[..|times|] == times;
  }

  lemma {:induction false} ExitsAreTimes(log: seq<Event>, k: nat, now: int)
    ensures ExitsWithin(log, k, now) == Within(ExitTimes(log, k), now)
    decreases |log|
  {
    if log != [] {
      var n := |log| - 1;
      ExitsAreTimes(log[..n], k, now);
      WithinPush(ExitTimes(log[..n], k), if log[n].Exited? then log[n].at else 0, now);
      assert ExitTimes(log[..n], k) + [] == ExitTimes(log[..n], k);
    }
  }

  lemma {:induction false} RecentCounts(exits: seq<int>, now: int)
    ensures |Recent(exits, now)| == Within(exits, now)
    decreases |exits|
  {
    if exits != [] { RecentCounts(exits[..|exits| - 1], now); }
  }

  /** What has been dropped was out of the window already. */
  lemma {:induction false} KeptCounts(exits: seq<int>, all: seq<int>, now: int)
    requires Kept(exits, all) && (all != [] ==> all[|all| - 1] <= now)
    ensures Within(exits, now) == Within(all, now)
  {
    var m := |all| - |exits|;
    assert exits == all[m..];
    if all != [] {
      forall i | 0 <= i < m ensures now - all[i] > WINDOW_MS { assert all[|all| - 1] - all[i] > WINDOW_MS; }
    }
    WithinDrops(all, m, now);
  }

  lemma {:induction false} WithinDrops(all: seq<int>, m: nat, now: int)
    requires m <= |all| && forall i :: 0 <= i < m ==> now - all[i] > WINDOW_MS
    ensures Within(all[m..], now) == Within(all, now)
    decreases |all|
  {
    if m == |all| {
      WithinNone(all, now);
    } else {
      var n := |all| - 1;
      assert all[m..] == all[..n][m..] + [all[n]] && all == all[..n] + [all[n]];
      WithinDrops(all[..n], m, now);
      WithinPush(all[..n][m..], all[n], now);
      WithinPush(all[..n], all[n], now);
    }
  }

  lemma {:induction false} WithinNone(all: seq<int>, now: int)
    requires forall i :: 0 <= i < |all| ==> now - all[i] > WINDOW_MS
    ensures Within(all, now) == 0
    decreases |all|
  {
    if all != [] { WithinNone(all[..|all| - 1], now); }
  }

  lemma {:induction false} ExitDecides(t: Table, k: nat, now: int)
    requires Inv(t, now) && k < |t.records|
    ensures |WithExit(t.records[k], now).exits| == ExitsWithin(t.log, k, now) + 1
  {
    assert RecordOk(t, k);
    var all := ExitTimes(t.log, k);
    ExitTimesBound(t.log, k, now);
    KeptCounts(t.records[k].exits, all, now);
    RecentCounts(t.records[k].exits, now);
    ExitsAreTimes(t.log, k, now);
  }

  /** The delay of the restart that the `n`-th exit within ten minutes schedules, if it schedules one. */
  function DelayFor(n: nat): Option<int> { if n == 1 then Some(1000) else if n == 2 then Some(2000) else None }

  /**
   In every run, an exit schedules a restart exactly if it is the first or the second of its record
   within ten minutes, one or two seconds ahead, and suspends the module otherwise.
   */
  lemma {:induction false} RestartUnlessThird(xs: seq<Timed>, x: Timed)
    requires InOrder(xs + [x]) && x.step.ExitStep?
    ensures var t, t' := Exec(xs), Next(Exec(xs), x);
      && x.step.name in t'.current
      && var k := t'.current[x.step.name]; var delay := DelayFor(ExitsWithin(t.log, k, x.now) + 1);
         && k == (if x.step.name in t.current then t.current[x.step.name] else |t.records|)
         && t'.log == t.log + [Exited(k, x.now, delay)]
         && t'.records[k].state == if delay.Some? then Restarting else Suspended
  {
    RunNow(xs, x);
    ExitStepDecides(Exec(xs), x.step.name, x.now);
  }

  lemma {:induction false} ExitStepDecides(t: Table, name: Name, now: int)
    requires Inv(t, now)
    ensures var t' := Exit(t, name, now);
      && name in t'.current
      && var k := t'.current[name]; var delay := DelayFor(ExitsWithin(t.log, k, now) + 1);
         && k == (if name in t.current then t.current[name] else |t.records|)
         && t'.log == t.log + [Exited(k, now, delay)]
         && t'.records[k].state == if delay.Some? then Restarting else Suspended
  {
    RecordForKeeps(t, name, now);
    var t1 := RecordFor(t, name);
    var k := t1.current[name];
    ExitDecides(t1, k, now);
    WithExitIs(t1.records[k], now);
  }

  lemma {:induction false} WithExitIs(r: Record, now: int)
    ensures var r' := WithExit(r, now); var delay := DelayFor(|r'.exits|);
      && r'.timer == (if delay.Some? then Some(now + delay.value) else None)
      && r'.state == if delay.Some? then Restarting else Suspended
  {
    BackoffIs();
  }

  lemma {:induction false} RunNow(xs: seq<Timed>, x: Timed)
    requires InOrder(xs + [x])
    ensures Inv(Exec(xs), x.now)
  {
    forall i, j | 0 <= i <= j < |xs| ensures xs[i].now <= xs[j].now {
      assert (xs + [x])[i].now <= (xs + [x])[j].now;
    }
    EveryRun(xs);
    if xs != [] {
      assert (xs + [x])[|xs| - 1].now <= (xs + [x])[|xs|].now;
      LaterOk(Exec(xs), xs[|xs| - 1].now, x.now);
    }
  }

  /** The last thing that happened to the record is an exit that scheduled a restart for `now` or earlier. */
  ghost predicate Due(log: seq<Event>, k: nat, now: int) {
    exists i: nat, due :: Scheduled(log, k, i, due, |log|) && due <= now
  }

  /**
   In every run, the timer of a record restarts its module exactly if the last thing that happened
   to the record is an exit that scheduled a restart which is due.
   */
  lemma {:induction false} FiresIff(xs: seq<Timed>, k: nat, now: int)
    requires InOrder(xs + [Timed(now, FireStep(k))])
    ensures var t, t' := Exec(xs), Next(Exec(xs), Timed(now, FireStep(k)));
      && (t'.log == t.log + [Fired(k, now)] <==> Due(t.log, k, now))
      && (t'.log == t.log + [Fired(k, now)] || t'.log == t.log)
  {
    var x := Timed(now, FireStep(k));
    RunNow(xs, x);
    FireDecides(Exec(xs), Next(Exec(xs), x), k, now);
  }

  lemma {:induction false} FireDecides(t: Table, t': Table, k: nat, now: int)
    requires Inv(t, now) && t' == if k < |t.records| then Fire(t, k, now) else t
    ensures t'.log == t.log + [Fired(k, now)] <==> Due(t.log, k, now)
    ensures t'.log == t.log + [Fired(k, now)] || t'.log == t.log
  {
    if k < |t.records| { assert RecordOk(t, k); }
    if Due(t.log, k, now) {
      var i: nat, due :| Scheduled(t.log, k, i, due, |t.log|) && due <= now;
      assert t.log[i].record == k && k < |t.records|;
    }
  }

  /** In every run, a record is in the state that was last said of it, with the restart that was then scheduled. */
  lemma {:induction false} StateAsSaid(xs: seq<Timed>, k: nat)
    requires InOrder(xs) && k < |Exec(xs).records|
    ensures var t := Exec(xs); var word := LastWord(t.log, k); var r := t.records[k];
      && (r.state == Running <==> word.None? || word.value.Tracked?)
      && (r.state == Restarting <==> word.Some? && word.value.Exited? && word.value.delay.Some?)
      && r.nextRestartAt == if r.state == Restarting then Some(word.value.at + word.value.delay.value) else None
  {
    EveryRun(xs);
    assert RecordOk(Exec(xs), k);
  }

  /** The last step that says whether a name has a record: a load or an exit makes one, an operator action takes it away. */
  function Recorded(xs: seq<Timed>, name: Name): bool {
    if xs == [] then false
    else
      match xs[|xs| - 1].step
      case TrackStep(n) => n == name || Recorded(xs[..|xs| - 1], name)
      case ExitStep(n) => n == name || Recorded(xs[..|xs| - 1], name)
      case ClearStep(n) => n != name && Recorded(xs[..|xs| - 1], name)
      case _ => Recorded(xs[..|xs| - 1], name)
  }

  /**
   In every run, a name has a record exactly if it was loaded or exited since it was last cleared, and
   keeps that one record until it is cleared.
   */
  lemma {:induction false} RecordedIff(xs: seq<Timed>, name: Name)
    ensures name in Exec(xs).current <==> Recorded(xs, name)
    ensures xs != [] && name in Exec(xs[..|xs| - 1]).current && name in Exec(xs).current ==>
      Exec(xs).current[name] == Exec(xs[..|xs| - 1]).current[name]
    decreases |xs|
  {
    if xs != [] { RecordedIff(xs[..|xs| - 1], name); }
  }

  /** In every run, a load, a clear and a refusal by the sandbox are what they say. */
  lemma {:induction false} OperatorSays(xs: seq<Timed>, x: Timed)
    requires InOrder(xs + [x])
    ensures var t, t' := Exec(xs), Next(Exec(xs), x);
      && (x.step.TrackStep? ==> x.step.name in t'.current && t'.log == t.log + [Tracked(t'.current[x.step.name])])
      && (x.step.ClearStep? ==> t'.log == if x.step.name in t.current then t.log + [Cleared(t.current[x.step.name])] else t.log)
      && (x.step.SuspendStep? ==> t'.log == if x.step.name in t.current then t.log + [Halted(t.current[x.step.name])] else t.log)
  {
  }
}
