/**
 Composition verification (lib/device-manager.js:745-849, 961-1016).  One device's check joins
 the answers for the addresses it declares; one discovery pass joins the verdicts of all its
 devices.  Answers and acknowledgements each come once, in any order, and passes may overlap.
 */
module Composition {
  import opened Wrappers

  type Address = string
  type Device = string

  // ----- one device: the join of its declared addresses -----

  datatype Result = Accepted(allowed: set<Address>) | Rejected(reason: string)

  /** The answer for one declared address: it resolved and is authorized, or why not. */
  datatype Reply = Granted | Refused(reason: string)

  /** The closure variables of the join; `answered` says which addresses have had their answer. */
  datatype Join = Join(declared: seq<Address>, answered: map<nat, Reply>, pending: int, failed: bool, allowed: set<Address>, calls: seq<Result>)

  function Open(declared: seq<Address>): Join { Join(declared, map[], |declared|, false, {}, []) }

  function Finish(j: Join, reason: Option<string>): Join {
    if j.failed then j
    else if reason.Some? then j.(failed := true, calls := j.calls + [Rejected(reason.value)])
    else if j.pending == 1 then j.(pending := 0, calls := j.calls + [Accepted(j.allowed)])
    else j.(pending := j.pending - 1)
  }

  /** The answer for the `i`-th declared address comes in. */
  function Answer(j: Join, i: nat, reply: Reply): Join {
    if i >= |j.declared| || i in j.answered then j
    else
      var j1 := j.(answered := j.answered[i := reply]);
      match reply
      case Refused(reason) => Finish(j1, Some(reason))
      case Granted => Finish(j1.(allowed := j1.allowed + {j.declared[i]}), None)
  }

  datatype Coming = Coming(i: nat, reply: Reply)

  function Answers(declared: seq<Address>, cs: seq<Coming>): Join {
    if cs == [] then Open(declared)
    else Answer(Answers(declared, cs[..|cs| - 1]), cs[|cs| - 1].i, cs[|cs| - 1].reply)
  }

  ghost predicate NoneRefused(j: Join) { forall i :: i in j.answered ==> j.answered[i].Granted? }

  ghost predicate JoinOk(j: Join) {
    && (forall i :: i in j.answered ==> i < |j.declared|)
    && (j.failed <==> !NoneRefused(j))
    && (!j.failed ==> j.pending == |j.declared| - |j.answered| && j.allowed == set i | i in j.answered :: j.declared[i])
    && (!j.failed ==> j.calls == if |j.answered| == |j.declared| then [Accepted(j.allowed)] else [])
    && (j.failed ==> exists i :: i in j.answered && j.answered[i].Refused? && j.calls == [Rejected(j.answered[i].reason)])
  }

  lemma FirstN(s: set<nat>, n: nat)
    requires forall i :: i in s ==> i < n
    ensures |s| <= n && (|s| == n ==> forall i: nat :: i < n ==> i in s)
  {
    if n > 0 {
      FirstN(s - {n - 1}, n - 1);
      if n - 1 in s {
        assert s == (s - {n - 1}) + {n - 1};
      } else {
        assert s - {n - 1} == s;
      }
    }
  }

  lemma {:induction false} AnswerKeeps(j: Join, i: nat, reply: Reply)
    requires JoinOk(j) && j.declared != []
    ensures JoinOk(Answer(j, i, reply)) && Answer(j, i, reply).declared == j.declared
  {
    if i < |j.declared| && i !in j.answered {
      var j' := Answer(j, i, reply);
      assert |j'.answered| == |j.answered| + 1;
      FirstN(j'.answered.Keys, |j.declared|);
      assert |j'.answered.Keys| == |j'.answered|;
      if j.failed {
        var k :| k in j.answered && j.answered[k].Refused? && j.calls == [Rejected(j.answered[k].reason)];
        assert k in j'.answered && j'.answered[k].Refused?;
      } else if reply.Refused? {
        assert i in j'.answered && j'.answered[i].Refused?;
      } else {
        assert j'.allowed == set k | k in j'.answered :: j.declared[k];
      }
    }
  }

  lemma {:induction false} EveryJoin(declared: seq<Address>, cs: seq<Coming>)
    requires declared != []
    ensures JoinOk(Answers(declared, cs)) && Answers(declared, cs).declared == declared
    decreases |cs|
  {
    if cs != [] {
      EveryJoin(declared, cs[..|cs| - 1]);
      AnswerKeeps(Answers(declared, cs[..|cs| - 1]), cs[|cs| - 1].i, cs[|cs| - 1].reply);
    }
  }

  /**
   For any order of answers: the verification calls back at most once, exactly once when every declared
   address has been answered, and with success only if all were granted, and then with all of them.
   */
  lemma {:induction false} CallsBackOnce(declared: seq<Address>, cs: seq<Coming>)
    requires declared != []
    ensures var j := Answers(declared, cs);
      && |j.calls| <= 1
      && ((forall i: nat :: i < |declared| ==> i in j.answered) ==> |j.calls| == 1)
      && (|j.calls| == 1 && j.calls[0].Accepted? <==>
          forall i: nat :: i < |declared| ==> i in j.answered && j.answered[i].Granted?)
      && (|j.calls| == 1 && j.calls[0].Accepted? ==> j.calls[0].allowed == set a | a in declared)
      && (forall x :: x in j.calls && x.Rejected? ==> exists i :: i in j.answered && j.answered[i] == Refused(x.reason))
  {
    EveryJoin(declared, cs);
    var j := Answers(declared, cs);
    FirstN(j.answered.Keys, |declared|);
    assert |j.answered.Keys| == |j.answered|;
    if forall i: nat :: i < |declared| ==> i in j.answered {
      AllOf(j.answered.Keys, |declared|);
      assert (set i | i in j.answered :: j.declared[i]) == set a | a in declared;
    }
  }

  lemma AllOf(s: set<nat>, n: nat)
    requires forall i: nat :: i in s <==> i < n
    ensures |s| == n
  {
    if n > 0 {
      AllOf(s - {n - 1}, n - 1);
      assert s == (s - {n - 1}) + {n - 1};
    }
  }

  // ----- one pass: the join of all verdicts -----

  /** What a device may call, if its module declares calls at all. */
  type Binding = Option<set<Address>>

  /** What a device's check calls back with. */
  datatype Check = Failed | Passed(composition: Binding)

  /** Where a device is in a pass: being checked, its binding on its way into its worker, or delivered. */
  datatype Stage = Verifying(fromWorker: bool) | Relaying(binding: Binding) | Delivered

  datatype Pass = Pass(again: bool, devices: map<Device, Stage>, verdictsPending: int, ready: nat)

  /**
   `bound` is what each device was last bound to.  `removed` records each device a verdict took
   away, with the pass that did; `told` is history, taken from the steps: what each check called
   back with.
   */
  datatype Server = Server(
    deviceMap: map<Device, bool>, passes: seq<Pass>, bound: map<Device, Binding>, removed: seq<(nat, Device)>,
    told: map<(nat, Device), Check>)

  function StartPass(s: Server): Server {
    var devices := map d | d in s.deviceMap :: Verifying(s.deviceMap[d]);
    s.(passes := s.passes + [Pass(s.passes != [], devices, |devices|, if devices == map[] then 1 else 0)])
  }

  function Deliver(p: Pass, d: Device): Pass {
    p.(devices := p.devices[d := Delivered], verdictsPending := p.verdictsPending - 1,
       ready := if p.verdictsPending == 1 then p.ready + 1 else p.ready)
  }

  /** A failed check of a later pass only takes the binding away; a worker's device is bound in its worker. */
  function Verdict(s: Server, k: nat, d: Device, check: Check): Server
    requires At(s, k, d) && s.passes[k].devices[d].Verifying?
  {
    var p := s.passes[k];
    if check.Failed? && !p.again then
      s.(passes := s.passes[k := Deliver(p, d)], deviceMap := s.deviceMap - {d}, removed := s.removed + [(k, d)])
    else
      var binding := if check.Failed? then None else check.composition;
      if p.devices[d].fromWorker then s.(passes := s.passes[k := p.(devices := p.devices[d := Relaying(binding)])])
      else s.(passes := s.passes[k := Deliver(p, d)], bound := s.bound[d := binding])
  }

  /** The worker has answered, whether it could bind the device or not. */
  function Acked(s: Server, k: nat, d: Device, ok: bool): Server
    requires k < |s.passes| && d in s.passes[k].devices && s.passes[k].devices[d].Relaying?
  {
    s.(passes := s.passes[k := Deliver(s.passes[k], d)],
       bound := if ok then s.bound[d := s.passes[k].devices[d].binding] else s.bound)
  }

  datatype Step =
    | PassStep
    | VerdictStep(k: nat, d: Device, check: Check)
    | AckStep(k: nat, d: Device, ok: bool)
    | OnlineStep(d: Device, fromWorker: bool)
    | GoneStep(d: Device)                       // its module is unloaded

  predicate At(s: Server, k: nat, d: Device) { k < |s.passes| && d in s.passes[k].devices }

  function Next(s: Server, step: Step): Server {
    match step
    case PassStep => StartPass(s)
    case VerdictStep(k, d, check) =>
      if At(s, k, d) && s.passes[k].devices[d].Verifying?
      then Verdict(s.(told := s.told[(k, d) := check]), k, d, check) else s
    case AckStep(k, d, ok) => if At(s, k, d) && s.passes[k].devices[d].Relaying? then Acked(s, k, d, ok) else s
    case OnlineStep(d, fromWorker) => s.(deviceMap := s.deviceMap[d := fromWorker])
    case GoneStep(d) => s.(deviceMap := s.deviceMap - {d})
  }

  function Exec(steps: seq<Step>): Server {
    if steps == [] then Server(map[], [], map[], [], map[]) else Next(Exec(steps[..|steps| - 1]), steps[|steps| - 1])
  }

  function Undelivered(p: Pass): set<Device> { set d | d in p.devices && p.devices[d] != Delivered }

  ghost predicate PassOk(p: Pass) {
    p.verdictsPending == |Undelivered(p)| && p.ready == if Undelivered(p) == {} then 1 else 0
  }

  function BindingOf(check: Check): Binding { if check.Failed? then None else check.composition }

  /** What has been called back of each device of a pass, and what is on its way into its worker. */
  ghost predicate ToldOk(s: Server, k: nat, d: Device)
    requires At(s, k, d)
  {
    && (s.passes[k].devices[d].Verifying? <==> (k, d) !in s.told)
    && (s.passes[k].devices[d].Relaying? ==> s.passes[k].devices[d].binding == BindingOf(s.told[(k, d)]))
  }

  ghost predicate TaleOk(s: Server) {
    && (forall k, d :: At(s, k, d) ==> ToldOk(s, k, d))
    && (forall k, d :: (k, d) in s.told ==> At(s, k, d))
    && (forall d :: (0, d) in s.removed <==> (0, d) in s.told && s.told[(0, d)].Failed?)
  }

  ghost predicate Inv(s: Server) {
    && (forall k :: 0 <= k < |s.passes| ==> PassOk(s.passes[k]) && (s.passes[k].again <==> k > 0))
    && (forall i :: 0 <= i < |s.removed| ==> s.removed[i].0 == 0)
  }

  lemma DeliverKeeps(p: Pass, d: Device)
    requires PassOk(p) && d in p.devices && p.devices[d] != Delivered
    ensures PassOk(Deliver(p, d))
  {
    assert Undelivered(Deliver(p, d)) == Undelivered(p) - {d};
  }

  lemma RelayKeeps(p: Pass, d: Device, b: Binding)
    requires PassOk(p) && d in p.devices && p.devices[d] != Delivered
    ensures PassOk(p.(devices := p.devices[d := Relaying(b)]))
  {
    assert Undelivered(p.(devices := p.devices[d := Relaying(b)])) == Undelivered(p);
  }

  lemma StartKeeps(s: Server)
    requires Inv(s)
    ensures Inv(StartPass(s))
  {
    var p := StartPass(s).passes[|s.passes|];
    assert Undelivered(p) == p.devices.Keys;
    assert |p.devices.Keys| == |p.devices|;
  }

  lemma NextKeeps(s: Server, step: Step)
    requires Inv(s)
    ensures Inv(Next(s, step))
  {
    match step
    case PassStep => StartKeeps(s);
    case VerdictStep(k, d, check) =>
      if At(s, k, d) && s.passes[k].devices[d].Verifying? {
        DeliverKeeps(s.passes[k], d);
        RelayKeeps(s.passes[k], d, BindingOf(check));
      }
    case AckStep(k, d, _) =>
      if At(s, k, d) && s.passes[k].devices[d].Relaying? { DeliverKeeps(s.passes[k], d); }
    case OnlineStep(_, _) =>
    case GoneStep(_) =>
  }

  lemma {:induction false} NextTold(s: Server, step: Step)
    requires Inv(s) && TaleOk(s)
    ensures TaleOk(Next(s, step))
  {
    match step
    case VerdictStep(k, d, check) =>
      if At(s, k, d) && s.passes[k].devices[d].Verifying? { VerdictTold(s, Next(s, step), k, d, check); }
    case _ => forall x, y | At(Next(s, step), x, y) ensures ToldOk(Next(s, step), x, y) { if At(s, x, y) { assert ToldOk(s, x, y); } }
  }

  lemma {:induction false} VerdictTold(s: Server, s': Server, k: nat, d: Device, check: Check)
    requires Inv(s) && TaleOk(s) && At(s, k, d) && s.passes[k].devices[d].Verifying?
    requires s' == Next(s, VerdictStep(k, d, check))
    ensures TaleOk(s')
  {
    assert s'.told == s.told[(k, d) := check];
    forall x, y | At(s', x, y) ensures ToldOk(s', x, y) { assert ToldOk(s, x, y); }
  }

  lemma {:induction false} EveryRun(steps: seq<Step>)
    ensures Inv(Exec(steps)) && TaleOk(Exec(steps))
    decreases |steps|
  {
    if steps != [] {
      EveryRun(steps[..|steps| - 1]);
      NextKeeps(Exec(steps[..|steps| - 1]), steps[|steps| - 1]);
      NextTold(Exec(steps[..|steps| - 1]), steps[|steps| - 1]);
    }
  }

  /** In every run, a pass logs the ready line once if every one of its devices has its verdict delivered, and not before. */
  lemma {:induction false} ReadyOnceAllDelivered(steps: seq<Step>, k: nat)
    requires k < |Exec(steps).passes|
    ensures var p := Exec(steps).passes[k];
      && p.ready <= 1
      && (p.ready == 1 <==> forall d :: d in p.devices ==> p.devices[d] == Delivered)
  {
    EveryRun(steps);
    var p := Exec(steps).passes[k];
    assert Undelivered(p) == {} <==> forall d :: d in p.devices ==> p.devices[d] == Delivered by {
      if Undelivered(p) == {} {
        forall d | d in p.devices ensures p.devices[d] == Delivered { assert d !in Undelivered(p); }
      }
    }
  }

  /** In every run, only the first pass takes devices away, and it takes away exactly those whose check called back with an error. */
  lemma {:induction false} OnlyFirstPassRemoves(steps: seq<Step>, k: nat, d: Device)
    ensures var s := Exec(steps); (k, d) in s.removed <==> k == 0 && (0, d) in s.told && s.told[(0, d)].Failed?
  {
    EveryRun(steps);
    var s := Exec(steps);
    if (k, d) in s.removed { var i :| 0 <= i < |s.removed| && s.removed[i] == (k, d); }
  }

  /** The check of `d` calls back in this step with an error, in the first pass. */
  ghost predicate Purges(s: Server, step: Step, d: Device) {
    && step.VerdictStep? && step.k == 0 && step.d == d && step.check.Failed?
    && At(s, 0, d) && (0, d) !in s.told
  }

  /**
   In every run, a step takes a device out of the device map exactly if its module is unloaded or its
   check of the first pass calls back with an error: a device that is online once the first pass is
   over stays online whatever later passes find.
   */
  lemma {:induction false} GoneIff(steps: seq<Step>, step: Step, d: Device)
    requires d in Exec(steps).deviceMap
    ensures d !in Next(Exec(steps), step).deviceMap <==> step == GoneStep(d) || Purges(Exec(steps), step, d)
  {
    EveryRun(steps);
    var s := Exec(steps);
    if step.VerdictStep? && At(s, step.k, step.d) { assert ToldOk(s, step.k, step.d); }
  }

  /** The device is bound in this step, after the `k`-th pass has checked it: at once, or when its worker says so. */
  ghost predicate Binds(s: Server, step: Step, k: nat, d: Device) {
    && At(s, k, d)
    && ((step.AckStep? && step.k == k && step.d == d && step.ok && s.passes[k].devices[d].Relaying?)
        || (step.VerdictStep? && step.k == k && step.d == d && s.passes[k].devices[d] == Verifying(false)
            && (step.check.Passed? || k > 0)))
  }

  /**
   In every run, what a device may call changes only when a verdict about it is delivered: to what
   that very check called back with, and to nothing if that was an error.
   */
  lemma {:induction false} BoundAsChecked(steps: seq<Step>, step: Step, k: nat, d: Device)
    ensures var s := Exec(steps); var s' := Next(s, step);
      Binds(s, step, k, d) ==>
        (k, d) in s'.told && d in s'.bound && s'.bound[d] == if s'.told[(k, d)].Failed? then None else s'.told[(k, d)].composition
    ensures var s := Exec(steps); var s' := Next(s, step);
      (forall n :: !Binds(s, step, n, d)) ==> (d in s'.bound <==> d in s.bound) && (d in s.bound ==> s'.bound[d] == s.bound[d])
  {
    EveryRun(steps);
    var s, s' := Exec(steps), Next(Exec(steps), step);
    if At(s, k, d) { assert ToldOk(s, k, d); }
    if (step.VerdictStep? || step.AckStep?) && At(s, step.k, step.d) {
      assert ToldOk(s, step.k, step.d);
      if forall n :: !Binds(s, step, n, d) { assert !Binds(s, step, step.k, d); }
    }
  }

  /**
   In every run, a device's verdict is delivered when its check calls back, unless it has to be told
   to the device's worker first, and then when that answers; a device the first pass takes away is
   never told.
   */
  lemma {:induction false} DeliveredIff(steps: seq<Step>, step: Step, k: nat, d: Device)
    requires At(Exec(steps), k, d) && !Exec(steps).passes[k].devices[d].Delivered?
    ensures var s := Exec(steps); var s' := Next(s, step); var stage := s.passes[k].devices[d];
      && At(s', k, d)
      && (s'.passes[k].devices[d].Delivered? <==>
            if stage.Relaying? then step.AckStep? && step.k == k && step.d == d
            else step.VerdictStep? && step.k == k && step.d == d && (!stage.fromWorker || (step.check.Failed? && k == 0)))
  {
    EveryRun(steps);
    StepDelivers(Exec(steps), step, Next(Exec(steps), step), k, d);
  }

  lemma {:induction false} StepDelivers(s: Server, step: Step, s': Server, k: nat, d: Device)
    requires At(s, k, d) && (s.passes[k].again <==> k > 0) && s' == Next(s, step)
    ensures At(s', k, d)
    ensures s.passes[k].devices[d].Relaying? ==>
      (s'.passes[k].devices[d].Delivered? <==> step.AckStep? && step.k == k && step.d == d)
    ensures s.passes[k].devices[d].Verifying? ==>
      (s'.passes[k].devices[d].Delivered? <==>
        step.VerdictStep? && step.k == k && step.d == d
        && (!s.passes[k].devices[d].fromWorker || (step.check.Failed? && k == 0)))
  {
    match step
    case VerdictStep(j, e, check) => if (j, e) != (k, d) { assert At(s', k, d) && s'.passes[k].devices[d] == s.passes[k].devices[d]; }
    case AckStep(j, e, ok) => if (j, e) != (k, d) { assert At(s', k, d) && s'.passes[k].devices[d] == s.passes[k].devices[d]; }
    case _ => assert s'.passes[k] == s.passes[k];
  }

  /** In every run, a pass checks exactly the devices that are online when it starts, each until its check calls back. */
  lemma {:induction false} PassChecksAll(steps: seq<Step>, d: Device)
    ensures var s := Exec(steps); var s' := Next(s, PassStep); var k := |s.passes|;
      && |s'.passes| == k + 1 && (d in s'.passes[k].devices <==> d in s.deviceMap)
      && (d in s.deviceMap ==> s'.passes[k].devices[d] == Verifying(s.deviceMap[d]))
    ensures var s := Exec(steps); forall k: nat :: At(s, k, d) ==> (s.passes[k].devices[d].Verifying? <==> (k, d) !in s.told)
  {
    EveryRun(steps);
    var s := Exec(steps);
    forall k: nat | At(s, k, d) ensures s.passes[k].devices[d].Verifying? <==> (k, d) !in s.told {
      assert ToldOk(s, k, d);
    }
  }

  // ----- in their own form -----

  /** The variables the answers of one check share. */
  class CompositionJoin {
    const declared: seq<Address>
    var pending: int
    var failed: bool
    var allowed: set<Address>
    var calls: seq<Result>
    ghost var answered: map<nat, Reply>

    ghost function State(): Join
      reads this
    {
      Join(declared, answered, pending, failed, allowed, calls)
    }

    constructor (declared: seq<Address>)
      ensures State() == Open(declared)
    {
      this.declared := declared;
      pending, failed, allowed, calls, answered := |declared|, false, {}, [], map[];
    }

    method OnAnswer(i: nat, reply: Reply)
      requires i < |declared| && i !in answered
      modifies this
      ensures State() == Answer(old(State()), i, reply)
    {
      answered := answered[i := reply];
      match reply {
        case Refused(reason) => FinishWith(Some(reason));
        case Granted =>
          allowed := allowed + {declared[i]};
          FinishWith(None);
      }
    }

    method FinishWith(reason: Option<string>)
      modifies `pending, `failed, `calls
      ensures State() == Finish(old(State()), reason)
    {
      if failed { return; }
      if reason.Some? {
        failed := true;
        calls := calls + [Rejected(reason.value)];
        return;
      }
      pending := pending - 1;
      if pending == 0 { calls := calls + [Accepted(allowed)]; }
    }
  }

  /** The counter the verdicts of one pass share. */
  class DiscoveryPass {
    var verdictsPending: int
    var readyLines: nat
    ghost var devices: map<Device, Stage>
    ghost const again: bool

    ghost function State(): Pass
      reads this
    {
      Pass(again, devices, verdictsPending, readyLines)
    }

    constructor (n: nat, ghost devices: map<Device, Stage>, ghost again: bool)
      requires n == |devices|
      ensures State() == Pass(again, devices, |devices|, if devices == map[] then 1 else 0)
    {
      verdictsPending := n;
      readyLines := if n == 0 then 1 else 0;
      this.devices, this.again := devices, again;
    }

    method VerdictDelivered(ghost d: Device)
      modifies this
      ensures State() == Deliver(old(State()), d)
    {
      verdictsPending := verdictsPending - 1;
      if verdictsPending == 0 { readyLines := readyLines + 1; }
      devices := devices[d := Delivered];
    }
  }
}
