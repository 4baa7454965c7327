/**
 lib/module-supervisor.js:24-102 in its own form: one object whose methods change records and
 timers in place.  `records` holds the record objects and `table` the `records` map of the
 source, from names to them.  Every method is the transition of Supervisor of the same name.
 */
module ModuleSupervisors {
  import opened Wrappers
  import S = Supervisor

  class ModuleSupervisor {
    var table: map<S.Name, nat>
    var records: seq<S.Record>
    ghost var log: seq<S.Event>

    ghost predicate Valid()
      reads this
    {
      forall n :: n in table ==> table[n] < |records|
    }

    ghost function State(): S.Table
      reads this
    {
      S.Table(table, records, log)
    }

    constructor ()
      ensures Valid() && State() == S.Start()
    {
      table, records, log := map[], [], [];
    }

    method RecordFor(name: S.Name) returns (k: nat)
      requires Valid()
      modifies `table, `records
      ensures Valid() && State() == S.RecordFor(old(State()), name)
      ensures name in table && k == table[name]
    {
      if name !in table {
        table := table[name := |records|];
        records := records + [S.Record(name, S.Running, [], None, None)];
      }
      k := table[name];
    }

    method Track(name: S.Name)
      requires Valid()
      modifies this
      ensures Valid() && State() == S.Track(old(State()), name)
    {
      var k := RecordFor(name);
      records := records[k := records[k].(state := S.Running, nextRestartAt := None)];
      log := log + [S.Tracked(k)];
    }

    /** `exits.filter`. */
    method RecentExits(exits: seq<int>, now: int) returns (recent: seq<int>)
      ensures recent == S.Recent(exits, now)
    {
      recent := [];
      for i := 0 to |exits|
        invariant recent == S.Recent(exits[..i], now)
      {
        assert exits[..i + 1][..i] == exits[..i];
        if now - exits[i] <= S.WINDOW_MS { recent := recent + [exits[i]]; }
      }
      assert exits[..|exits|] == exits;
    }

    /** The delay of the restart that was scheduled, or none if the module is suspended. */
    method Exited(name: S.Name, now: int) returns (delay: Option<int>)
      requires Valid()
      modifies this
      ensures Valid() && State() == S.Exit(old(State()), name, now)
      ensures log == old(log) + [S.Exited(table[name], now, delay)]
    {
      var k := RecordFor(name);
      ghost var was := records[k];
      var exits := RecentExits(records[k].exits, now);
      exits := exits + [now];
      if |exits| >= S.SUSPEND_AFTER {
        delay := None;
        records := records[k := records[k].(exits := exits, timer := None, state := S.Suspended, nextRestartAt := None)];
      } else {
        var delayMs := S.BackoffFor(|exits|);
        delay := Some(delayMs);
        records := records[k := records[k].(exits := exits, state := S.Restarting,
                                            nextRestartAt := Some(now + delayMs), timer := Some(now + delayMs))];
      }
      log := log + [S.Exited(k, now, delay)];
      assert records[k] == S.WithExit(was, now);
    }

    method Clear(name: S.Name)
      requires Valid()
      modifies this
      ensures Valid() && State() == S.Clear(old(State()), name)
    {
      if name !in table { return; }
      var k := table[name];
      records := records[k := records[k].(timer := None)];
      table := table - {name};
      log := log + [S.Cleared(k)];
    }

    method IsCurrent(name: S.Name, k: nat) returns (current: bool)
      ensures current <==> S.Lookup(table, name) == Some(k)
    {
      return name in table && table[name] == k;
    }

    method Suspend(name: S.Name) returns (known: bool)
      requires Valid()
      modifies `records, `log
      ensures Valid() && State() == S.Suspend(old(State()), name)
      ensures known <==> name in table
    {
      if name !in table { return false; }
      var k := table[name];
      records := records[k := records[k].(timer := None, state := S.Suspended, nextRestartAt := None)];
      log := log + [S.Halted(k)];
      return true;
    }

    /** The timer of record `k` calls back; `restart` says whether the restart callback is called. */
    method OnTimer(k: nat, now: int) returns (restart: bool)
      requires Valid() && k < |records| && records[k].timer.Some? && records[k].timer.value <= now
      modifies `records, `log
      ensures Valid() && State() == S.Fire(old(State()), k, now)
      ensures restart <==> log == old(log) + [S.Fired(k, now)]
    {
      records := records[k := records[k].(timer := None)];
      restart := records[k].state == S.Restarting;
      if restart { log := log + [S.Fired(k, now)]; }
    }
  }
}
