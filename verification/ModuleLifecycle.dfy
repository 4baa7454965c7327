/**
 lib/module-lifecycle.js:12-38 in its own form: one object with the `chains` and `entries`
 maps.  `sections` and `workers` stand for the promises and entry objects it holds.  Every
 method is the transition of Lifecycle of the same purpose.
 */
module ModuleLifecycles {
  import opened Wrappers
  import L = Lifecycle

  class ModuleLifecycle {
    var chains: map<L.Name, nat>
    var entries: map<L.Name, nat>
    var sections: seq<L.Section>
    var workers: seq<L.Worker>

    /** The whole state, with `rest` for what the module manager holds. */
    ghost function State(rest: L.Life): L.Life
      reads this
    {
      rest.(chains := chains, sections := sections, entries := entries, workers := workers)
    }

    constructor ()
      ensures State(L.Start()) == L.Start()
    {
      chains, entries, sections, workers := map[], map[], [], [];
    }

    method Run(name: L.Name, kind: L.Kind, ghost rest: L.Life) returns (k: nat)
      modifies `chains, `sections
      ensures k == |old(sections)|
      ensures State(rest) == L.Run(old(State(rest)), name, kind)
    {
      var prev := if name in chains then Some(chains[name]) else None;
      k := |sections|;
      sections := sections + [L.Section(name, kind, prev, L.Queued, false, false)];
      chains := chains[name := k];
    }

    /** The reaction to a section's tail. */
    method OnTail(k: nat, ghost rest: L.Life)
      requires k < |sections|
      modifies `chains
      ensures State(rest) == L.Forget(old(State(rest)), k)
    {
      var name := sections[k].name;
      if name in chains && chains[name] == k { chains := chains - {name}; }
    }

    /** Called by the section that starts the worker, as its last act. */
    method Track(k: nat, ghost rest: L.Life) returns (w: nat)
      requires k < |sections|
      modifies `entries, `workers, `sections
      ensures w == |old(workers)|
      ensures State(rest) == L.StartWorker(old(State(rest)), k)
    {
      w := |workers|;
      workers := workers + [L.Worker(sections[k].name, k, false, false, false)];
      entries := entries[sections[k].name := w];
      sections := sections[k := sections[k].(stage := L.Over)];
    }

    method OnExited(w: nat, ghost rest: L.Life)
      requires w < |workers| && workers[w].exited
      modifies `workers
      ensures State(rest) == L.Next(old(State(rest)), L.FlagStep(w))
    {
      workers := workers[w := workers[w].(flagged := true)];
    }

    method OnSettled(w: nat, ghost rest: L.Life)
      requires w < |workers| && workers[w].settled
      modifies `entries
      ensures State(rest) == L.Next(old(State(rest)), L.UntrackStep(w))
    {
      var name := workers[w].name;
      if name in entries && entries[name] == w { entries := entries - {name}; }
    }

    method LiveEntry(name: L.Name, ghost rest: L.Life) returns (w: Option<nat>)
      requires forall n :: n in entries ==> entries[n] < |workers|
      ensures w == L.Live(State(rest), name)
      ensures w.Some? ==> w.value < |workers| && !workers[w.value].flagged
    {
      if name !in entries { return None; }
      var e := entries[name];
      return if workers[e].flagged then None else Some(e);
    }
  }
}
