/**
 Worker lifecycle of modules: the per-name promise-chain lock (lib/module-lifecycle.js:12-38)
 and the sections that spawning and uninstalling run under it (lib/module-manager.js:568-608,
 896-955).  A step is one promise reaction or one event; reactions may be delayed freely, so
 the results hold for every order the event loop can produce.

 A section is one call of `run`.  Its `next` promise settles when its function does, its
 `tail` some time after that, and the reaction that forgets the chain runs later still.
 */
module Lifecycle {
  import opened Wrappers

  type Name = string

  /** A spawn for the operator, a supervised restart for one record, or an uninstall. */
  datatype Kind = Load | Restart(record: nat) | Uninstall

  /** Where a section is: waiting its turn, then between the awaits of its function, then over. */
  datatype Stage = Queued | Terminating(worker: nat) | Settling(wait: Option<nat>) | Acting | Over

  datatype Section = Section(name: Name, kind: Kind, prev: Option<nat>, stage: Stage, tail: bool, cleared: bool)

  /** A tracked worker: `exited` is its 'exit' event, `flagged` the lifecycle's hasExited. */
  datatype Worker = Worker(name: Name, section: nat, exited: bool, flagged: bool, settled: bool)

  datatype Life = Life(
    chains: map<Name, nat>, sections: seq<Section>,
    entries: map<Name, nat>, workers: seq<Worker>,
    records: map<Name, nat>, nextRecord: nat, modules: map<Name, nat>)

  function Start(): Life { Life(map[], [], map[], [], map[], 0, map[]) }

  function Lookup(m: map<Name, nat>, name: Name): Option<nat> { if name in m then Some(m[name]) else None }

  // ----- the lock -----

  /** `run`: the new section waits for the tail of the chain's last one. */
  function Run(s: Life, name: Name, kind: Kind): Life {
    s.(sections := s.sections + [Section(name, kind, Lookup(s.chains, name), Queued, false, false)],
       chains := s.chains[name := |s.sections|])
  }

  predicate CanBegin(s: Life, k: nat)
    requires k < |s.sections|
  {
    s.sections[k].stage.Queued? &&
    (s.sections[k].prev.None? || (s.sections[k].prev.value < |s.sections| && s.sections[s.sections[k].prev.value].tail))
  }

  function At(s: Life, k: nat, stage: Stage): Life
    requires k < |s.sections|
  {
    s.(sections := s.sections[k := s.sections[k].(stage := stage)])
  }

  function ResolveTail(s: Life, k: nat): Life
    requires k < |s.sections|
  {
    s.(sections := s.sections[k := s.sections[k].(tail := true)])
  }

  /** The last reaction: the chain is forgotten if nobody has joined it since. */
  function Forget(s: Life, k: nat): Life
    requires k < |s.sections|
  {
    var name := s.sections[k].name;
    if Lookup(s.chains, name) == Some(k) then s.(chains := s.chains - {name}) else s
  }

  // ----- the functions run under it -----

  /** `live`: tracked and not yet known to have exited. */
  function Live(s: Life, name: Name): Option<nat> {
    if name in s.entries && s.entries[name] < |s.workers| && !s.workers[s.entries[name]].flagged
    then Some(s.entries[name]) else None
  }

  /** A supervisor record, a loaded module or a live worker holds the name. */
  predicate Busy(s: Life, name: Name) { name in s.records || name in s.modules || Live(s, name).Some? }

  /** The section's function starts. */
  function Begin(s: Life, k: nat): Life
    requires k < |s.sections| && CanBegin(s, k)
  {
    var sec := s.sections[k];
    var live := Live(s, sec.name);
    match sec.kind
    case Uninstall => At(s, k, if Busy(s, sec.name) then Over else Settling(Lookup(s.entries, sec.name)))
    case Restart(_) => At(s, k, if live.Some? then Over else Settling(Lookup(s.entries, sec.name)))
    case Load => At(s, k, if live.Some? then Terminating(live.value) else Settling(Lookup(s.entries, sec.name)))
  }

  /** `await live.terminate()` is over. */
  function Terminated(s: Life, k: nat): Life
    requires k < |s.sections|
  {
    At(s, k, Settling(Lookup(s.entries, s.sections[k].name)))
  }

  /** The new worker starts and is tracked; the spawn's section is over. */
  function StartWorker(s: Life, k: nat): Life
    requires k < |s.sections|
  {
    var name := s.sections[k].name;
    At(s, k, Over).(workers := s.workers + [Worker(name, k, false, false, false)], entries := s.entries[name := |s.workers|])
  }

  // ----- workers -----

  function SetWorker(s: Life, w: nat, x: Worker): Life
    requires w < |s.workers|
  {
    s.(workers := s.workers[w := x])
  }

  function Untrack(s: Life, w: nat): Life
    requires w < |s.workers|
  {
    var name := s.workers[w].name;
    if Lookup(s.entries, name) == Some(w) then s.(entries := s.entries - {name}) else s
  }

  /** The worker has loaded its module: it is registered, unless a restart's record is no longer current. */
  function Loaded(s: Life, w: nat): Life
    requires w < |s.workers| && s.workers[w].section < |s.sections|
  {
    var sec := s.sections[s.workers[w].section];
    if sec.kind.Restart? && Lookup(s.records, sec.name) != Some(sec.kind.record) then s
    else s.(modules := s.modules[sec.name := w])
  }

  /** An operator action clears the supervisor's record of the name. */
  function Clear(s: Life, name: Name): Life {
    s.(records := s.records - {name},
       sections := seq(|s.sections|, i requires 0 <= i < |s.sections| =>
         if s.sections[i].name == name then s.sections[i].(cleared := true) else s.sections[i]))
  }

  // ----- steps -----

  datatype Step =
    | RunStep(name: Name, kind: Kind)
    | BeginStep(k: nat)
    | TerminatedStep(k: nat)
    | SettledStep(k: nat)
    | StartStep(k: nat)
    | FinishStep(k: nat)                  // the function throws, or the uninstall is done
    | TailStep(k: nat)
    | ForgetStep(k: nat)
    | ExitStep(w: nat)
    | FlagStep(w: nat)
    | SettleStep(w: nat)
    | UntrackStep(w: nat)
    | LoadedStep(w: nat)
    | UnloadStep(name: Name)              // the module is taken off its worker
    | RecordStep(name: Name)              // the supervisor makes a record for the name
    | ClearStep(name: Name)

  /** Whether a step can be taken: what each reaction waits for. */
  predicate Enabled(s: Life, step: Step) {
    match step
    case RunStep(name, kind) =>
      && (kind.Restart? ==> Lookup(s.records, name) == Some(kind.record))
      && (kind.Uninstall? ==> !Busy(s, name))
    case BeginStep(k) => k < |s.sections| && CanBegin(s, k)
    case TerminatedStep(k) =>
      k < |s.sections| && s.sections[k].stage.Terminating?
      && s.sections[k].stage.worker < |s.workers| && s.workers[s.sections[k].stage.worker].exited
    case SettledStep(k) =>
      k < |s.sections| && s.sections[k].stage.Settling?
      && (s.sections[k].stage.wait.Some? ==>
          s.sections[k].stage.wait.value < |s.workers| && s.workers[s.sections[k].stage.wait.value].settled)
    case StartStep(k) => k < |s.sections| && s.sections[k].stage.Acting? && !s.sections[k].kind.Uninstall?
    case FinishStep(k) => k < |s.sections| && s.sections[k].stage.Acting?
    case TailStep(k) => k < |s.sections| && s.sections[k].stage.Over? && !s.sections[k].tail
    case ForgetStep(k) => k < |s.sections| && s.sections[k].tail
    case ExitStep(w) => w < |s.workers|
    case FlagStep(w) => w < |s.workers| && s.workers[w].exited
    case SettleStep(w) => w < |s.workers| && s.workers[w].exited
    case UntrackStep(w) => w < |s.workers| && s.workers[w].settled
    case LoadedStep(w) => w < |s.workers| && !s.workers[w].exited && s.workers[w].section < |s.sections|
    case UnloadStep(name) => name in s.modules
    case RecordStep(name) => name !in s.records
    case ClearStep(_) => true
  }

  function Next(s: Life, step: Step): Life
    requires Enabled(s, step)
  {
    match step
    case RunStep(name, kind) => Run(s, name, kind)
    case BeginStep(k) => Begin(s, k)
    case TerminatedStep(k) => Terminated(s, k)
    case SettledStep(k) => At(s, k, Acting)
    case StartStep(k) => StartWorker(s, k)
    case FinishStep(k) => At(s, k, Over)
    case TailStep(k) => ResolveTail(s, k)
    case ForgetStep(k) => Forget(s, k)
    case ExitStep(w) => SetWorker(s, w, s.workers[w].(exited := true))
    case FlagStep(w) => SetWorker(s, w, s.workers[w].(flagged := true))
    case SettleStep(w) => SetWorker(s, w, s.workers[w].(settled := true))
    case UntrackStep(w) => Untrack(s, w)
    case LoadedStep(w) => Loaded(s, w)
    case UnloadStep(name) => s.(modules := s.modules - {name})
    case RecordStep(name) => s.(records := s.records[name := s.nextRecord], nextRecord := s.nextRecord + 1)
    case ClearStep(name) => Clear(s, name)
  }

  /** A run: steps that are not enabled when their turn comes are not taken. */
  function Exec(steps: seq<Step>): Life {
    if steps == [] then Start()
    else
      var s := Exec(steps[..|steps| - 1]);
      var step := steps[|steps| - 1];
      if Enabled(s, step) then Next(s, step) else s
  }

  // ----- the lock's invariant -----

  predicate Running(stage: Stage) { !stage.Queued? && !stage.Over? }

  /** Every section before `k` of the same name is over, its tail too. */
  ghost predicate AllDone(s: Life, k: nat, name: Name)
    requires k <= |s.sections|
  {
    forall j :: 0 <= j < k && s.sections[j].name == name ==> s.sections[j].stage.Over? && s.sections[j].tail
  }

  /** `p` is the section of the name that arrived just before `k`. */
  ghost predicate Previous(s: Life, p: nat, k: nat, name: Name)
    requires k <= |s.sections|
  {
    p < k && s.sections[p].name == name && forall j :: p < j < k ==> s.sections[j].name != name
  }

  ghost predicate Linked(s: Life, k: nat, prev: Option<nat>, name: Name)
    requires k <= |s.sections|
  {
    if prev.None? then AllDone(s, k, name) else Previous(s, prev.value, k, name)
  }

  ghost predicate SectionOk(s: Life, k: nat)
    requires k < |s.sections|
  {
    var sec := s.sections[k];
    && Linked(s, k, sec.prev, sec.name)
    && (!sec.stage.Queued? ==> AllDone(s, k, sec.name))
    && (sec.tail ==> sec.stage.Over?)
  }

  ghost predicate LockOk(s: Life) {
    && (forall k :: 0 <= k < |s.sections| ==> SectionOk(s, k))
    && (forall name :: Linked(s, |s.sections|, Lookup(s.chains, name), name))
  }

  /** A step that takes sections forward only: stages leave Queued, reach Over for good, tails resolve. */
  ghost predicate Forward(s: Life, s': Life) {
    && |s'.sections| == |s.sections| && s'.chains == s.chains
    && (forall k :: 0 <= k < |s.sections| ==>
        && s'.sections[k].name == s.sections[k].name && s'.sections[k].prev == s.sections[k].prev
        && (s.sections[k].stage.Over? ==> s'.sections[k].stage.Over?)
        && (s.sections[k].tail ==> s'.sections[k].tail)
        && (s'.sections[k].tail ==> s'.sections[k].stage.Over?)
        && (s'.sections[k].stage.Queued? || !s.sections[k].stage.Queued? || CanBegin(s, k)))
  }

  lemma DoneStays(s: Life, s': Life, k: nat, name: Name)
    requires Forward(s, s') && k <= |s.sections| && AllDone(s, k, name)
    ensures AllDone(s', k, name)
  {
  }

  lemma ForwardLinked(s: Life, s': Life, k: nat, prev: Option<nat>, name: Name)
    requires Forward(s, s') && k <= |s.sections| && Linked(s, k, prev, name)
    ensures Linked(s', k, prev, name)
  {
    if prev.None? { DoneStays(s, s', k, name); }
  }

  /** Whoever may begin comes after sections that are all over. */
  lemma BeginsDone(s: Life, k: nat)
    requires LockOk(s) && k < |s.sections| && CanBegin(s, k)
    ensures AllDone(s, k, s.sections[k].name)
  {
    var sec := s.sections[k];
    assert SectionOk(s, k);
    if sec.prev.Some? {
      var p := sec.prev.value;
      assert SectionOk(s, p);
      forall j | 0 <= j < k && s.sections[j].name == sec.name ensures s.sections[j].stage.Over? && s.sections[j].tail {
        assert j <= p;
      }
    }
  }

  lemma ForwardLock(s: Life, s': Life)
    requires LockOk(s) && Forward(s, s')
    ensures LockOk(s')
  {
    forall k | 0 <= k < |s'.sections| ensures SectionOk(s', k) {
      assert SectionOk(s, k);
      var sec := s.sections[k];
      ForwardLinked(s, s', k, sec.prev, sec.name);
      if !s'.sections[k].stage.Queued? {
        if sec.stage.Queued? { BeginsDone(s, k); }
        DoneStays(s, s', k, sec.name);
      }
    }
    forall name ensures Linked(s', |s'.sections|, Lookup(s'.chains, name), name) {
      ForwardLinked(s, s', |s.sections|, Lookup(s.chains, name), name);
    }
  }

  lemma RunLock(s: Life, name: Name, kind: Kind)
    requires LockOk(s)
    ensures LockOk(Run(s, name, kind))
  {
    var s', n := Run(s, name, kind), |s.sections|;
    assert forall j :: 0 <= j < n ==> s'.sections[j] == s.sections[j];
    forall k | 0 <= k < |s'.sections| ensures SectionOk(s', k) {
      if k < n { assert SectionOk(s, k); } else { assert Linked(s, n, Lookup(s.chains, name), name); }
    }
    forall x ensures Linked(s', n + 1, Lookup(s'.chains, x), x) {
      assert Linked(s, n, Lookup(s.chains, x), x);
    }
  }

  lemma ForgetLock(s: Life, k: nat)
    requires LockOk(s) && k < |s.sections| && s.sections[k].tail
    ensures LockOk(Forget(s, k))
  {
    var s', name := Forget(s, k), s.sections[k].name;
    if s' != s {
      assert SectionOk(s, k);
      assert Linked(s, |s.sections|, Some(k), name);
      forall j | 0 <= j < |s'.sections| ensures SectionOk(s', j) { assert SectionOk(s, j); }
      forall x ensures Linked(s', |s'.sections|, Lookup(s'.chains, x), x) {
        assert Linked(s, |s.sections|, Lookup(s.chains, x), x);
      }
    }
  }

  predicate MovesSections(step: Step) { step.RunStep? || step.ForgetStep? }

  lemma StepForward(s: Life, step: Step)
    requires LockOk(s) && Enabled(s, step) && !MovesSections(step)
    ensures Forward(s, Next(s, step))
  {
    forall k | 0 <= k < |s.sections| ensures s.sections[k].tail ==> s.sections[k].stage.Over? { assert SectionOk(s, k); }
    match step
    case BeginStep(k) => BeginForward(s, k);
    case ClearStep(name) => ClearForward(s, name);
    case _ =>
  }

  /** A resolved tail means the section is over. */
  ghost predicate TailsOver(s: Life) { forall k :: 0 <= k < |s.sections| && s.sections[k].tail ==> s.sections[k].stage.Over? }

  lemma BeginForward(s: Life, k: nat)
    requires TailsOver(s) && k < |s.sections| && CanBegin(s, k)
    ensures Forward(s, Begin(s, k))
  {
  }

  lemma ClearForward(s: Life, name: Name)
    requires TailsOver(s)
    ensures Forward(s, Clear(s, name))
  {
  }

  lemma NextLock(s: Life, step: Step)
    requires LockOk(s) && Enabled(s, step)
    ensures LockOk(Next(s, step))
  {
    match step
    case RunStep(name, kind) => RunLock(s, name, kind);
    case ForgetStep(k) => ForgetLock(s, k);
    case _ =>
      StepForward(s, step);
      ForwardLock(s, Next(s, step));
  }

  /** Only one section of a name is between its start and its end. */
  lemma Exclusive(s: Life, j: nat, k: nat)
    requires LockOk(s) && j < |s.sections| && k < |s.sections| && s.sections[j].name == s.sections[k].name
    requires Running(s.sections[j].stage) && Running(s.sections[k].stage)
    ensures j == k
  {
    assert SectionOk(s, j) && SectionOk(s, k);
  }

  // ----- the workers' invariant -----

  ghost predicate WorkerOk(s: Life, w: nat)
    requires w < |s.workers|
  {
    var x := s.workers[w];
    && x.section < |s.sections| && s.sections[x.section].name == x.name
    && (x.settled ==> x.exited) && (x.flagged ==> x.exited)
    && (!x.settled ==> Lookup(s.entries, x.name) == Some(w))
  }

  /** What a section has waited for: by the time it acts, no worker of the name is unsettled. */
  ghost predicate WaitOk(s: Life, k: nat)
    requires k < |s.sections|
  {
    var sec := s.sections[k];
    match sec.stage
    case Terminating(w) => w < |s.workers|
    case Settling(wait) =>
      (wait.Some? ==> wait.value < |s.workers|) &&
      forall w :: 0 <= w < |s.workers| && s.workers[w].name == sec.name && !s.workers[w].settled ==> wait == Some(w)
    case Acting => forall w :: 0 <= w < |s.workers| && s.workers[w].name == sec.name ==> s.workers[w].settled
    case _ => true
  }

  ghost predicate RecordOk(s: Life, k: nat)
    requires k < |s.sections|
  {
    var sec := s.sections[k];
    sec.kind.Restart? ==>
      sec.kind.record < s.nextRecord && (sec.cleared ==> Lookup(s.records, sec.name) != Some(sec.kind.record))
  }

  ghost predicate WorkersOk(s: Life) {
    && (forall w :: 0 <= w < |s.workers| ==> WorkerOk(s, w))
    && (forall k :: 0 <= k < |s.sections| ==> WaitOk(s, k))
    && (forall name :: name in s.entries ==> s.entries[name] < |s.workers|)
  }

  ghost predicate RecordsOk(s: Life) {
    && (forall name :: name in s.records ==> s.records[name] < s.nextRecord)
    && (forall k :: 0 <= k < |s.sections| ==> RecordOk(s, k))
  }

  /** Sections keep their names; stages change as `WaitOk` allows; workers only settle. */
  ghost predicate Calmly(s: Life, s': Life) {
    && |s.sections| <= |s'.sections| && |s'.workers| == |s.workers|
    && (forall k :: 0 <= k < |s.sections| ==> s'.sections[k].name == s.sections[k].name)
    && (forall w :: 0 <= w < |s.workers| ==>
        && s'.workers[w].name == s.workers[w].name && s'.workers[w].section == s.workers[w].section
        && (s.workers[w].settled ==> s'.workers[w].settled)
        && (s'.workers[w].settled ==> s'.workers[w].exited) && (s'.workers[w].flagged ==> s'.workers[w].exited))
    && (forall w :: 0 <= w < |s.workers| && !s'.workers[w].settled ==>
        Lookup(s'.entries, s.workers[w].name) == Lookup(s.entries, s.workers[w].name))
    && (forall name :: name in s'.entries ==> name in s.entries && s'.entries[name] == s.entries[name])
  }

  lemma WaitStays(s: Life, s': Life, k: nat)
    requires Calmly(s, s') && k < |s.sections| && WaitOk(s, k) && s'.sections[k].stage == s.sections[k].stage
    ensures WaitOk(s', k)
  {
  }

  lemma CalmlyOk(s: Life, s': Life)
    requires WorkersOk(s) && Calmly(s, s')
    requires forall k :: 0 <= k < |s'.sections| ==>
      (k < |s.sections| && s'.sections[k].stage == s.sections[k].stage) || WaitOk(s', k)
    ensures WorkersOk(s')
  {
    forall w | 0 <= w < |s'.workers| ensures WorkerOk(s', w) { assert WorkerOk(s, w); }
    forall k | 0 <= k < |s'.sections| ensures WaitOk(s', k) {
      if k < |s.sections| && s'.sections[k].stage == s.sections[k].stage { WaitStays(s, s', k); }
    }
  }

  /** What `settled(name)` returns covers every worker of the name that is not settled. */
  lemma LookupCovers(s: Life, k: nat, name: Name)
    requires WorkersOk(s) && k < |s.sections| && s.sections[k].name == name
    ensures WaitOk(At(s, k, Settling(Lookup(s.entries, name))), k)
  {
    forall w | 0 <= w < |s.workers| && s.workers[w].name == name && !s.workers[w].settled
      ensures Lookup(s.entries, name) == Some(w)
    {
      assert WorkerOk(s, w);
    }
  }

  lemma StageOk(s: Life, s': Life, k: nat, stage: Stage)
    requires WorkersOk(s) && k < |s.sections| && s' == At(s, k, stage) && WaitOk(s', k)
    ensures WorkersOk(s')
  {
    forall w | 0 <= w < |s.workers| ensures s'.workers[w].settled ==> s'.workers[w].exited { assert WorkerOk(s, w); }
    forall w | 0 <= w < |s.workers| ensures s'.workers[w].flagged ==> s'.workers[w].exited { assert WorkerOk(s, w); }
    CalmlyOk(s, s');
  }

  lemma BeginOk(s: Life, k: nat)
    requires WorkersOk(s) && k < |s.sections| && CanBegin(s, k)
    ensures WorkersOk(Begin(s, k))
  {
    var s' := Begin(s, k);
    LookupCovers(s, k, s.sections[k].name);
    StageOk(s, s', k, s'.sections[k].stage);
  }

  lemma SettledOk(s: Life, k: nat)
    requires WorkersOk(s) && Enabled(s, SettledStep(k))
    ensures WorkersOk(At(s, k, Acting))
  {
    var s' := At(s, k, Acting);
    assert WaitOk(s, k);
    assert WaitOk(s', k);
    StageOk(s, s', k, Acting);
  }

  /** The one place a worker appears: under the lock, when no worker of the name is unsettled. */
  lemma StartOk(s: Life, k: nat)
    requires LockOk(s) && WorkersOk(s) && Enabled(s, StartStep(k))
    ensures WorkersOk(StartWorker(s, k))
  {
    var s', name := StartWorker(s, k), s.sections[k].name;
    assert WaitOk(s, k);
    forall w | 0 <= w < |s'.workers| ensures WorkerOk(s', w) {
      if w < |s.workers| { assert WorkerOk(s, w); }
    }
    forall j | 0 <= j < |s'.sections| ensures WaitOk(s', j) {
      assert WaitOk(s, j);
      if j != k && s.sections[j].name == name && Running(s.sections[j].stage) { Exclusive(s, j, k); }
    }
  }

  lemma WorkerStepOk(s: Life, step: Step)
    requires WorkersOk(s) && Enabled(s, step)
    requires step.ExitStep? || step.FlagStep? || step.SettleStep? || step.UntrackStep? || step.LoadedStep?
    ensures WorkersOk(Next(s, step))
  {
    var s' := Next(s, step);
    forall w | 0 <= w < |s.workers| ensures s'.workers[w].settled ==> s'.workers[w].exited { assert WorkerOk(s, w); }
    forall w | 0 <= w < |s.workers| ensures s'.workers[w].flagged ==> s'.workers[w].exited { assert WorkerOk(s, w); }
    forall w | 0 <= w < |s.workers| && !s'.workers[w].settled
      ensures Lookup(s'.entries, s.workers[w].name) == Lookup(s.entries, s.workers[w].name)
    {
      assert WorkerOk(s, w);
    }
    CalmlyOk(s, s');
  }

  lemma OtherStepOk(s: Life, step: Step)
    requires WorkersOk(s) && Enabled(s, step)
    requires step.RunStep? || step.TailStep? || step.ForgetStep? || step.RecordStep? || step.ClearStep? || step.UnloadStep?
    ensures WorkersOk(Next(s, step))
  {
    var s' := Next(s, step);
    forall w | 0 <= w < |s.workers| ensures s'.workers[w].settled ==> s'.workers[w].exited { assert WorkerOk(s, w); }
    forall w | 0 <= w < |s.workers| ensures s'.workers[w].flagged ==> s'.workers[w].exited { assert WorkerOk(s, w); }
    CalmlyOk(s, s');
  }

  lemma NextWorkers(s: Life, step: Step)
    requires LockOk(s) && WorkersOk(s) && Enabled(s, step)
    ensures WorkersOk(Next(s, step))
  {
    match step
    case BeginStep(k) => BeginOk(s, k);
    case TerminatedStep(k) =>
      LookupCovers(s, k, s.sections[k].name);
      StageOk(s, Next(s, step), k, Next(s, step).sections[k].stage);
    case SettledStep(k) => SettledOk(s, k);
    case StartStep(k) => StartOk(s, k);
    case FinishStep(k) => StageOk(s, Next(s, step), k, Over);
    case ExitStep(_) => WorkerStepOk(s, step);
    case FlagStep(_) => WorkerStepOk(s, step);
    case SettleStep(_) => WorkerStepOk(s, step);
    case UntrackStep(_) => WorkerStepOk(s, step);
    case LoadedStep(_) => WorkerStepOk(s, step);
    case _ => OtherStepOk(s, step);
  }

  lemma NextRecords(s: Life, step: Step)
    requires RecordsOk(s) && Enabled(s, step)
    ensures RecordsOk(Next(s, step))
  {
    var s' := Next(s, step);
    forall k | 0 <= k < |s'.sections| ensures RecordOk(s', k) {
      if k < |s.sections| { assert RecordOk(s, k); }
    }
  }

  // ----- every run -----

  lemma {:induction false} EveryRun(steps: seq<Step>)
    ensures var s := Exec(steps); LockOk(s) && WorkersOk(s) && RecordsOk(s)
    decreases |steps|
  {
    if steps != [] {
      var s, step := Exec(steps[..|steps| - 1]), steps[|steps| - 1];
      EveryRun(steps[..|steps| - 1]);
      if Enabled(s, step) {
        NextLock(s, step);
        NextWorkers(s, step);
        NextRecords(s, step);
      }
    }
  }
}
