/**
 The results about worker lifecycle, over every run: a run is the sequence of states that any
 sequence of enabled steps leads through.
 */
module LifecycleResults {
  import opened Wrappers
  import opened Lifecycle

  ghost predicate Follows(s: Life, step: Step, s': Life) { Enabled(s, step) && s' == Next(s, step) }

  ghost predicate IsRun(ss: seq<Life>, steps: seq<Step>) {
    |ss| == |steps| + 1 && ss[0] == Start() && forall i :: 0 <= i < |steps| ==> Follows(ss[i], steps[i], ss[i + 1])
  }

  lemma {:induction false} RunIsExec(ss: seq<Life>, steps: seq<Step>)
    requires IsRun(ss, steps)
    ensures Exec(steps) == ss[|steps|]
    decreases |steps|
  {
    if steps != [] {
      var n := |steps| - 1;
      assert IsRun(ss[..n + 1], steps[..n]);
      RunIsExec(ss[..n + 1], steps[..n]);
      assert Follows(ss[n], steps[n], ss[n + 1]);
      ExecLast(steps, ss[n], ss[n + 1]);
    }
  }

  lemma {:induction false} ExecLast(steps: seq<Step>, s: Life, s': Life)
    requires steps != [] && Exec(steps[..|steps| - 1]) == s && Follows(s, steps[|steps| - 1], s')
    ensures Exec(steps) == s'
  {
  }

  /** Sections of one name never overlap, and one begins only after all that arrived before it are over. */
  lemma {:induction false} SectionsInTurn(ss: seq<Life>, steps: seq<Step>, j: nat, k: nat)
    requires IsRun(ss, steps) && j < k < |ss[|steps|].sections|
    requires ss[|steps|].sections[j].name == ss[|steps|].sections[k].name
    ensures !ss[|steps|].sections[k].stage.Queued? ==> ss[|steps|].sections[j].stage.Over?
    ensures !(Running(ss[|steps|].sections[j].stage) && Running(ss[|steps|].sections[k].stage))
  {
    RunIsExec(ss, steps);
    EveryRun(steps);
    assert SectionOk(ss[|steps|], k);
  }

  /** At most one worker of a name is unsettled, so at most one has not exited. */
  lemma {:induction false} OneWorkerPerName(ss: seq<Life>, steps: seq<Step>, v: nat, w: nat)
    requires IsRun(ss, steps) && v < |ss[|steps|].workers| && w < |ss[|steps|].workers|
    requires ss[|steps|].workers[v].name == ss[|steps|].workers[w].name
    requires !ss[|steps|].workers[v].settled || !ss[|steps|].workers[v].exited
    requires !ss[|steps|].workers[w].settled || !ss[|steps|].workers[w].exited
    ensures v == w
  {
    RunIsExec(ss, steps);
    EveryRun(steps);
    assert WorkerOk(ss[|steps|], v) && WorkerOk(ss[|steps|], w);
  }

  /** A worker starts, and an uninstall deletes, only when every earlier worker of the name has exited and settled. */
  lemma {:induction false} ActsOnlyWhenSettled(ss: seq<Life>, steps: seq<Step>, k: nat, w: nat)
    requires IsRun(ss, steps) && k < |ss[|steps|].sections| && ss[|steps|].sections[k].stage.Acting?
    requires w < |ss[|steps|].workers| && ss[|steps|].workers[w].name == ss[|steps|].sections[k].name
    ensures ss[|steps|].workers[w].exited && ss[|steps|].workers[w].settled
  {
    RunIsExec(ss, steps);
    EveryRun(steps);
    assert WaitOk(ss[|steps|], k) && WorkerOk(ss[|steps|], w);
  }

  /**
   A section that begins while a worker of its name has not exited: an uninstall is refused and a
   supervised restart gives way at once; an operator's load ends that very worker first.
   */
  lemma {:induction false} LiveWorkerWins(ss: seq<Life>, steps: seq<Step>, k: nat, w: nat, s': Life)
    requires IsRun(ss, steps) && Follows(ss[|steps|], BeginStep(k), s')
    requires var s := ss[|steps|]; w < |s.workers| && !s.workers[w].exited && s.workers[w].name == s.sections[k].name
    ensures k < |s'.sections|
    ensures s'.sections[k].stage == if ss[|steps|].sections[k].kind.Load? then Terminating(w) else Over
  {
    RunIsExec(ss, steps);
    EveryRun(steps);
    assert WorkerOk(ss[|steps|], w);
  }

  /** A worker of the name is tracked and its exit is not yet known. */
  ghost predicate HasLive(s: Life, name: Name) {
    exists w :: 0 <= w < |s.workers| && s.workers[w].name == name && !s.workers[w].flagged && Lookup(s.entries, name) == Some(w)
  }

  /** A supervisor record, running, restarting or suspended, a loaded module or a live worker has the name. */
  ghost predicate Held(s: Life, name: Name) { name in s.records || name in s.modules || HasLive(s, name) }

  lemma HeldIsBusy(s: Life, name: Name)
    requires WorkersOk(s) && EntriesNamed(s)
    ensures Held(s, name) <==> Busy(s, name)
    ensures HasLive(s, name) <==> Live(s, name).Some?
  {
    if Live(s, name).Some? { assert s.workers[s.entries[name]].name == name; }
  }

  ghost predicate EntriesNamed(s: Life) {
    forall name :: name in s.entries && s.entries[name] < |s.workers| ==> s.workers[s.entries[name]].name == name
  }

  lemma {:induction false} NamedStep(s: Life, step: Step, s': Life)
    requires EntriesNamed(s) && WorkersOk(s) && Follows(s, step, s')
    ensures EntriesNamed(s')
  {
    StepWorkersStay(s, step, s');
    match step
    case StartStep(k) => StartNamed(s, k);
    case UntrackStep(w) => UntrackNamed(s, w);
    case _ => assert s'.entries == s.entries;
  }

  lemma {:induction false} StartNamed(s: Life, k: nat)
    requires EntriesNamed(s) && WorkersOk(s) && k < |s.sections|
    ensures EntriesNamed(StartWorker(s, k))
  {
  }

  lemma {:induction false} UntrackNamed(s: Life, w: nat)
    requires EntriesNamed(s) && w < |s.workers|
    ensures EntriesNamed(Untrack(s, w))
  {
  }

  lemma {:induction false} RunNamed(ss: seq<Life>, steps: seq<Step>)
    requires IsRun(ss, steps)
    ensures EntriesNamed(ss[|steps|])
    decreases |steps|
  {
    if steps != [] {
      var n := |steps| - 1;
      assert IsRun(ss[..n + 1], steps[..n]) && Follows(ss[n], steps[n], ss[n + 1]);
      RunNamed(ss[..n + 1], steps[..n]);
      RunIsExec(ss[..n + 1], steps[..n]);
      EveryRun(steps[..n]);
      NamedStep(ss[n], steps[n], ss[n + 1]);
    }
  }

  /**
   What a section does when its turn comes: an uninstall ends at once exactly if the name is held,
   and a supervised restart exactly if a worker of the name is live; an operator's load ends such a
   worker first; any other goes on to wait for the name's last worker to settle.
   */
  lemma {:induction false} BeginDecides(ss: seq<Life>, steps: seq<Step>, k: nat, s': Life)
    requires IsRun(ss, steps) && Follows(ss[|steps|], BeginStep(k), s')
    ensures k < |s'.sections| && var s := ss[|steps|]; var sec := s.sections[k]; var stage := s'.sections[k].stage;
      && (sec.kind.Uninstall? ==> (stage.Over? <==> Held(s, sec.name)))
      && (sec.kind.Restart? ==> (stage.Over? <==> HasLive(s, sec.name)))
      && (sec.kind.Load? ==> !stage.Over? && (stage.Terminating? <==> HasLive(s, sec.name)))
      && (stage.Over? || stage.Settling? || (sec.kind.Load? && stage.Terminating?))
  {
    RunIsExec(ss, steps);
    EveryRun(steps);
    RunNamed(ss, steps);
    HeldIsBusy(ss[|steps|], ss[|steps|].sections[k].name);
  }

  /** A section that is over is over for good. */
  lemma {:induction false} OverForGood(ss: seq<Life>, steps: seq<Step>, i: nat, j: nat, k: nat)
    requires IsRun(ss, steps) && i <= j <= |steps| && k < |ss[i].sections| && ss[i].sections[k].stage.Over?
    ensures k < |ss[j].sections| && ss[j].sections[k].stage.Over?
    decreases j
  {
    if i < j {
      OverForGood(ss, steps, i, j - 1, k);
      assert Follows(ss[j - 1], steps[j - 1], ss[j]);
      assert IsRun(ss[..j], steps[..j - 1]);
      RunIsExec(ss[..j], steps[..j - 1]);
      EveryRun(steps[..j - 1]);
      OverStays(ss[j - 1], steps[j - 1], ss[j], k);
    }
  }

  lemma {:induction false} OverStays(s: Life, step: Step, s': Life, k: nat)
    requires LockOk(s) && Follows(s, step, s') && k < |s.sections| && s.sections[k].stage.Over?
    ensures k < |s'.sections| && s'.sections[k].stage.Over?
  {
    if !MovesSections(step) { StepForward(s, step); }
  }

  /**
   An uninstall that begins while a record, a module or a live worker holds the name ends at once and
   never deletes anything, however the run goes on.
   */
  lemma {:induction false} HeldNameNeverUninstalled(ss: seq<Life>, steps: seq<Step>, i: nat, j: nat, k: nat)
    requires IsRun(ss, steps) && i < j <= |steps| && steps[i] == BeginStep(k) && k < |ss[i].sections|
    requires ss[i].sections[k].kind.Uninstall? && Held(ss[i], ss[i].sections[k].name)
    ensures k < |ss[j].sections| && ss[j].sections[k].stage.Over?
  {
    assert Follows(ss[i], steps[i], ss[i + 1]);
    assert IsRun(ss[..i + 1], steps[..i]);
    BeginDecides(ss[..i + 1], steps[..i], k, ss[i + 1]);
    OverForGood(ss, steps, i + 1, j, k);
  }

  /** Where a section stands between its start and its end. */
  function Phase(stage: Stage): nat {
    match stage
    case Queued => 0
    case Terminating(_) => 1
    case Settling(_) => 2
    case Acting => 3
    case Over => 4
  }

  /** What a section that has begun waits for is all that keeps it: then it goes one phase on. */
  lemma {:induction false} SectionsAdvance(ss: seq<Life>, steps: seq<Step>, k: nat)
    requires IsRun(ss, steps) && k < |ss[|steps|].sections| && Running(ss[|steps|].sections[k].stage)
    requires var s := ss[|steps|]; forall w :: 0 <= w < |s.workers| && s.workers[w].name == s.sections[k].name ==>
      s.workers[w].exited && (s.sections[k].stage.Settling? ==> s.workers[w].settled)
    ensures exists step :: Advances(ss[|steps|], step, k)
  {
    RunIsExec(ss, steps);
    EveryRun(steps);
    RunTargets(ss, steps);
    var s := ss[|steps|];
    assert Targeted(s, k);
    match s.sections[k].stage
    case Terminating(_) => assert Advances(s, TerminatedStep(k), k);
    case Settling(_) => assert Advances(s, SettledStep(k), k);
    case Acting => assert Advances(s, FinishStep(k), k);
    case _ =>
  }

  ghost predicate Advances(s: Life, step: Step, k: nat)
    requires k < |s.sections|
  {
    Enabled(s, step) && k < |Next(s, step).sections| && Phase(Next(s, step).sections[k].stage) == Phase(s.sections[k].stage) + 1
  }

  /** A section waits for workers of its own name. */
  ghost predicate Targeted(s: Life, k: nat)
    requires k < |s.sections|
  {
    var sec := s.sections[k];
    && (sec.stage.Terminating? ==> sec.stage.worker < |s.workers| && s.workers[sec.stage.worker].name == sec.name)
    && (sec.stage.Settling? && sec.stage.wait.Some? ==>
          sec.stage.wait.value < |s.workers| && s.workers[sec.stage.wait.value].name == sec.name)
  }

  ghost predicate AllTargeted(s: Life) { forall k :: 0 <= k < |s.sections| ==> Targeted(s, k) }

  ghost predicate WorkersStay(s: Life, s': Life) {
    |s.workers| <= |s'.workers| && forall w :: 0 <= w < |s.workers| ==> s'.workers[w].name == s.workers[w].name
  }

  /** A section that does not stay where it is waits for its name's entry, if for any. */
  ghost predicate Retargets(s: Life, s': Life, k: nat)
    requires k < |s'.sections|
  {
    var x := s'.sections[k];
    || (k < |s.sections| && x.stage == s.sections[k].stage && x.name == s.sections[k].name)
    || x.stage.Queued? || x.stage.Over? || x.stage.Acting?
    || (x.stage.Settling? && x.stage.wait == Lookup(s.entries, x.name))
    || (x.stage.Terminating? && Lookup(s.entries, x.name) == Some(x.stage.worker))
  }

  lemma {:induction false} StepRetargets(s: Life, step: Step, s': Life, k: nat)
    requires Follows(s, step, s') && k < |s'.sections|
    ensures Retargets(s, s', k)
  {
    match step
    case BeginStep(j) => BeginRetargets(s, j, k);
    case RunStep(_, _) =>
    case ClearStep(_) =>
    case StartStep(j) => if k != j { assert s'.sections[k] == s.sections[k]; }
    case _ => NoRetarget(s, step, s', k);
  }

  lemma {:induction false} BeginRetargets(s: Life, j: nat, k: nat)
    requires j < |s.sections| && CanBegin(s, j) && k < |Begin(s, j).sections|
    ensures Retargets(s, Begin(s, j), k)
  {
    if k != j { assert Begin(s, j).sections[k] == s.sections[k]; }
  }

  lemma {:induction false} NoRetarget(s: Life, step: Step, s': Life, k: nat)
    requires Follows(s, step, s') && k < |s'.sections|
    requires !step.BeginStep? && !step.RunStep? && !step.ClearStep? && !step.StartStep?
    ensures Retargets(s, s', k)
  {
  }

  lemma {:induction false} StepWorkersStay(s: Life, step: Step, s': Life)
    requires Follows(s, step, s')
    ensures WorkersStay(s, s')
  {
  }

  lemma {:induction false} TargetedStep(s: Life, s': Life)
    requires AllTargeted(s) && EntriesNamed(s) && WorkersOk(s) && WorkersStay(s, s')
    requires forall k :: 0 <= k < |s'.sections| ==> Retargets(s, s', k)
    ensures AllTargeted(s')
  {
    forall k | 0 <= k < |s'.sections| ensures Targeted(s', k) {
      assert Retargets(s, s', k);
      if k < |s.sections| && s'.sections[k].stage == s.sections[k].stage { assert Targeted(s, k); }
    }
  }

  lemma {:induction false} NextTargeted(s: Life, step: Step, s': Life)
    requires AllTargeted(s) && EntriesNamed(s) && WorkersOk(s) && Follows(s, step, s')
    ensures AllTargeted(s')
  {
    StepWorkersStay(s, step, s');
    forall k | 0 <= k < |s'.sections| ensures Retargets(s, s', k) { StepRetargets(s, step, s', k); }
    TargetedStep(s, s');
  }

  lemma {:induction false} RunTargets(ss: seq<Life>, steps: seq<Step>)
    requires IsRun(ss, steps)
    ensures AllTargeted(ss[|steps|])
    decreases |steps|
  {
    if steps != [] {
      var n := |steps| - 1;
      assert IsRun(ss[..n + 1], steps[..n]) && Follows(ss[n], steps[n], ss[n + 1]);
      RunTargets(ss[..n + 1], steps[..n]);
      RunNamed(ss[..n + 1], steps[..n]);
      RunIsExec(ss[..n + 1], steps[..n]);
      EveryRun(steps[..n]);
      NextTargeted(ss[n], steps[n], ss[n + 1]);
    }
  }

  /** A section that starts a worker is over, and that worker is its name's entry and its only unsettled one. */
  lemma {:induction false} StartedWorkerIsTracked(ss: seq<Life>, steps: seq<Step>, k: nat, s': Life)
    requires IsRun(ss, steps) && Follows(ss[|steps|], StartStep(k), s')
    ensures var n := |ss[|steps|].workers|;
      && k < |s'.sections| && s'.sections[k].stage.Over? && |s'.workers| == n + 1
      && s'.workers[n] == Worker(s'.sections[k].name, k, false, false, false) && Lookup(s'.entries, s'.sections[k].name) == Some(n)
      && forall w :: 0 <= w < n && s'.workers[w].name == s'.sections[k].name ==> s'.workers[w].settled
  {
    RunIsExec(ss, steps);
    EveryRun(steps);
    assert WaitOk(ss[|steps|], k);
  }

  /** The reaction to a section's tail forgets the chain exactly if no section of the name has arrived since. */
  lemma {:induction false} ForgottenByLast(ss: seq<Life>, steps: seq<Step>, k: nat, s': Life)
    requires IsRun(ss, steps) && Follows(ss[|steps|], ForgetStep(k), s')
    ensures var s := ss[|steps|]; var name := s.sections[k].name;
      if (forall j :: k < j < |s.sections| ==> s.sections[j].name != name) then s'.chains == s.chains - {name}
      else s'.chains == s.chains
  {
    RunIsExec(ss, steps);
    EveryRun(steps);
    var s := ss[|steps|];
    assert Linked(s, |s.sections|, Lookup(s.chains, s.sections[k].name), s.sections[k].name);
  }

  /** The reaction to a worker's settling takes its own entry away and no other. */
  lemma {:induction false} SettledIsUntracked(ss: seq<Life>, steps: seq<Step>, w: nat, s': Life)
    requires IsRun(ss, steps) && Follows(ss[|steps|], UntrackStep(w), s')
    ensures forall name :: Lookup(s'.entries, name) == if Lookup(ss[|steps|].entries, name) == Some(w) then None
      else Lookup(ss[|steps|].entries, name)
  {
    RunNamed(ss, steps);
  }

  /**
   A worker that has loaded its module is registered under its name, unless its restart's record is
   no longer the one it was asked for; one cleared since it was asked for never is.
   */
  lemma {:induction false} SupersededNeverRegisters(ss: seq<Life>, steps: seq<Step>, w: nat, s': Life)
    requires IsRun(ss, steps) && Follows(ss[|steps|], LoadedStep(w), s')
    ensures var s := ss[|steps|]; var sec := s.sections[s.workers[w].section];
      && (sec.kind.Restart? && sec.cleared ==> s'.modules == s.modules)
      && s'.modules == if sec.kind.Restart? && !(sec.name in s.records && s.records[sec.name] == sec.kind.record) then s.modules
                       else s.modules[s.workers[w].name := w]
  {
    RunIsExec(ss, steps);
    EveryRun(steps);
    assert RecordOk(ss[|steps|], ss[|steps|].workers[w].section) && WorkerOk(ss[|steps|], w);
  }

  /** A name gets a module or a record, and loses it, in no step but these. */
  lemma {:induction false} HeldChanges(ss: seq<Life>, steps: seq<Step>, step: Step, s': Life, name: Name)
    requires IsRun(ss, steps) && Follows(ss[|steps|], step, s')
    ensures name in s'.modules && name !in ss[|steps|].modules ==> step.LoadedStep? && ss[|steps|].workers[step.w].name == name
    ensures name !in s'.modules && name in ss[|steps|].modules <==> step == UnloadStep(name)
    ensures name in s'.records && name !in ss[|steps|].records <==> step == RecordStep(name)
    ensures name !in s'.records && name in ss[|steps|].records <==> step == ClearStep(name) && name in ss[|steps|].records
  {
    RunIsExec(ss, steps);
    EveryRun(steps);
    ModulesChange(ss[|steps|], step, s', name);
    RecordsChange(ss[|steps|], step, s', name);
  }

  lemma {:induction false} ModulesChange(s: Life, step: Step, s': Life, name: Name)
    requires WorkersOk(s) && Follows(s, step, s')
    ensures name in s'.modules && name !in s.modules ==> step.LoadedStep? && s.workers[step.w].name == name
    ensures name !in s'.modules && name in s.modules <==> step == UnloadStep(name) && name in s.modules
  {
    match step
    case LoadedStep(w) => assert WorkerOk(s, w);
    case UnloadStep(_) =>
    case _ => assert s'.modules == s.modules;
  }

  lemma {:induction false} RecordsChange(s: Life, step: Step, s': Life, name: Name)
    requires Follows(s, step, s')
    ensures name in s'.records && name !in s.records <==> step == RecordStep(name)
    ensures name !in s'.records && name in s.records <==> step == ClearStep(name) && name in s.records
  {
    match step
    case RecordStep(_) =>
    case ClearStep(_) =>
    case _ => assert s'.records == s.records;
  }

  /** The section before `k` in its chain, of the same name, has yet to run its reaction, and can. */
  ghost predicate WaitsForTail(s: Life, k: nat)
    requires k < |s.sections|
  {
    s.sections[k].prev.Some? && s.sections[k].prev.value < k &&
    var j := s.sections[k].prev.value; s.sections[j].name == s.sections[k].name && Enabled(s, TailStep(j))
  }

  /** If every section of a name before a queued one is over, it can begin, or the reaction of the very section it waits for can run. */
  lemma {:induction false} LockNeverLost(ss: seq<Life>, steps: seq<Step>, k: nat)
    requires IsRun(ss, steps) && k < |ss[|steps|].sections| && ss[|steps|].sections[k].stage.Queued?
    requires var s := ss[|steps|];
      forall j :: 0 <= j < k && s.sections[j].name == s.sections[k].name ==> s.sections[j].stage.Over?
    ensures CanBegin(ss[|steps|], k) || WaitsForTail(ss[|steps|], k)
  {
    RunIsExec(ss, steps);
    EveryRun(steps);
    var s := ss[|steps|];
    assert SectionOk(s, k);
    if s.sections[k].prev.Some? && !s.sections[s.sections[k].prev.value].tail {
      assert Enabled(s, TailStep(s.sections[k].prev.value));
    }
  }
}
