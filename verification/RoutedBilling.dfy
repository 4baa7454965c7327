/**
 Hops routed through the main thread (lib/device-manager.js:582-667): the key of each hop
 travels in its own message, and its charge is made when the callee has answered.  Any number
 of hops are under way at once; each callback comes once, in any order.

 A hop is answered once (lib/session.js:57).  Its session's timer (lib/session.js:242-250) may
 answer it before the callee does; the callee's answer is then still handled, and metered,
 though nobody is told.
 */
module RoutedBilling {
  import opened Wrappers

  type Value = string

  const DEVICE_NOT_FOUND := "DEVICE_NOT_FOUND"
  const DEVICE_NOT_RESPONDING := "DEVICE_NOT_RESPONDING"
  const HOP_IDENTITY_UNRESOLVED := "HOP_IDENTITY_UNRESOLVED"
  const NOT_IN_MAP := "device not found in map"

  datatype Request = Request(appKey: Option<string>, billingKey: Option<string>, deviceID: string, tool: string)

  /** `error` is the message of the error the caller is given. */
  datatype Reply = Reply(error: Option<string>, data: Option<Value>, metering: Option<Value>)

  /** What `missingDeviceError` says of a device that no worker hosts. */
  datatype Missing = Missing(code: string, message: string)

  /**
   Where a hop is: being authorized (only to be told why its device is missing, if it is), at the
   callee, being metered with the callee's output, or over.
   */
  datatype Stage = Authorizing(missing: Option<string>) | AtCallee | Metering(output: Option<Value>) | Over

  /** `reply` is the one answer given. */
  datatype Hop = Hop(request: Request, stage: Stage, reply: Option<Reply>)

  datatype Callback = Callback(error: Option<string>, value: Option<Value>)

  /**
   History, taken from the steps themselves: whether the device was hosted when the hop arrived and
   what was said of it if not, what `userAuth`, the callee and `recordCall` called back with, and
   whether the timer expired.
   */
  datatype Told = Told(
    hosted: bool, missing: Missing, auth: Option<Callback>, served: Option<Callback>, recorded: Option<Callback>, expired: bool)

  datatype Charge = Charge(hop: nat, key: string, tool: string, output: Option<Value>)

  /** `metered` is whether the interface that records calls is there at all (CHUtil.ci). */
  datatype State = State(metered: bool, hosts: set<string>, hops: seq<Hop>, charges: seq<Charge>, told: seq<Told>)

  /** `Session.callback`, wrapped in `once`: only the first answer is given. */
  function Answer(h: Hop, reply: Reply): Hop {
    if h.reply.Some? then h else h.(reply := Some(reply))
  }

  function Fail(h: Hop, error: string, data: Option<Value>): Hop { Answer(h, Reply(Some(error), data, None)) }

  /** A hop arrives; one for a device no worker hosts is answered without being served. */
  function Arrived(r: Request, hosted: bool, missing: Missing): Hop {
    if hosted then Hop(r, Authorizing(None), None)
    else if missing.code != DEVICE_NOT_FOUND then Hop(r, Authorizing(Some(missing.message)), None)
    else Fail(Hop(r, Over, None), NOT_IN_MAP, None)
  }

  /** `userAuth` calls back. */
  function Authorized(h: Hop, errCode: Option<string>): Hop
    requires h.stage.Authorizing?
  {
    if errCode.Some? then Fail(h.(stage := Over), errCode.value, None)
    else if h.stage.missing.Some? then Fail(h.(stage := Over), h.stage.missing.value, None)
    else h.(stage := AtCallee)
  }

  /** The session's timer expires; answering a hop clears it. */
  function Expired(h: Hop): Hop { Fail(h, DEVICE_NOT_RESPONDING, None) }

  predicate Chargeable(h: Hop, metered: bool) { metered && h.request.billingKey.Some? }

  /** The callee answers; a success is metered before it is passed on. */
  function Served(h: Hop, metered: bool, errCode: Option<string>, data: Option<Value>): Hop {
    if errCode.Some? then Fail(h.(stage := Over), errCode.value, data)
    else if !metered then Answer(h.(stage := Over), Reply(None, data, None))
    else if h.request.billingKey.None? then Fail(h.(stage := Over), HOP_IDENTITY_UNRESOLVED, None)
    else h.(stage := Metering(data))
  }

  /** A metering error lets the hop through, without a metering result. */
  function Recorded(h: Hop, errCode: Option<string>, result: Option<Value>): Hop
    requires h.stage.Metering?
  {
    Answer(h.(stage := Over), Reply(None, h.stage.output, if errCode.None? then result else None))
  }

  datatype Step =
    | ArriveStep(request: Request, missing: Missing)
    | AuthorizedStep(h: nat, errCode: Option<string>)
    | ServedStep(h: nat, errCode: Option<string>, data: Option<Value>)
    | RecordedStep(h: nat, errCode: Option<string>, result: Option<Value>)
    | ExpiredStep(h: nat)
    | HostsStep(hosts: set<string>)

  ghost predicate Sized(s: State) { |s.told| == |s.hops| }

  function Set(s: State, i: nat, h: Hop, told: Told): State
    requires i < |s.hops| == |s.told|
  {
    s.(hops := s.hops[i := h], told := s.told[i := told])
  }

  function Next(s: State, step: Step): (s': State)
    requires Sized(s)
    ensures Sized(s')
  {
    match step
    case ArriveStep(r, missing) =>
      var hosted := r.deviceID in s.hosts;
      s.(hops := s.hops + [Arrived(r, hosted, missing)], told := s.told + [Told(hosted, missing, None, None, None, false)])
    case AuthorizedStep(i, err) =>
      if i < |s.hops| && s.hops[i].stage.Authorizing?
      then Set(s, i, Authorized(s.hops[i], err), s.told[i].(auth := Some(Callback(err, None)))) else s
    case ServedStep(i, err, data) =>
      if i < |s.hops| && s.hops[i].stage.AtCallee? then
        var h := s.hops[i];
        var s1 := Set(s, i, Served(h, s.metered, err, data), s.told[i].(served := Some(Callback(err, data))));
        if err.None? && Chargeable(h, s.metered)
        then s1.(charges := s.charges + [Charge(i, h.request.billingKey.value, h.request.tool, data)]) else s1
      else s
    case RecordedStep(i, err, result) =>
      if i < |s.hops| && s.hops[i].stage.Metering?
      then Set(s, i, Recorded(s.hops[i], err, result), s.told[i].(recorded := Some(Callback(err, result)))) else s
    case ExpiredStep(i) =>
      if i < |s.hops| && (s.hops[i].stage.AtCallee? || s.hops[i].stage.Metering?)
      then Set(s, i, Expired(s.hops[i]), s.told[i].(expired := true)) else s
    case HostsStep(hosts) => s.(hosts := hosts)
  }

  function Exec(metered: bool, steps: seq<Step>): (s: State)
    ensures Sized(s)
  {
    if steps == [] then State(metered, {}, [], [], []) else Next(Exec(metered, steps[..|steps| - 1]), steps[|steps| - 1])
  }

  // ----- what the callbacks call for -----

  /** The hop was for a hosted device and authorized. */
  predicate Passed(t: Told) { t.hosted && t.auth.Some? && t.auth.value.error.None? }

  /** The callee succeeded on a hop somebody can be charged for. */
  predicate Earned(t: Told, r: Request, metered: bool) {
    Passed(t) && t.served.Some? && t.served.value.error.None? && metered && r.billingKey.Some?
  }

  predicate TimerRuns(t: Told, r: Request, metered: bool) {
    Passed(t) && (t.served.None? || (Earned(t, r, metered) && t.recorded.None?))
  }

  function Failure(error: string, data: Option<Value>): Option<Reply> { Some(Reply(Some(error), data, None)) }

  /** The answer that what came back for a hop calls for, once it has. */
  function Expected(t: Told, r: Request, metered: bool): Option<Reply> {
    if t.expired then Failure("DEVICE_NOT_RESPONDING", None)
    else if !t.hosted && t.missing.code == "DEVICE_NOT_FOUND" then Failure("device not found in map", None)
    else if t.auth.None? then None
    else if t.auth.value.error.Some? then Failure(t.auth.value.error.value, None)
    else if !t.hosted then Failure(t.missing.message, None)
    else if t.served.None? then None
    else if t.served.value.error.Some? then Failure(t.served.value.error.value, t.served.value.value)
    else if !metered then Some(Reply(None, t.served.value.value, None))
    else if r.billingKey.None? then Failure("HOP_IDENTITY_UNRESOLVED", None)
    else if t.recorded.None? then None
    else Some(Reply(None, t.served.value.value, if t.recorded.value.error.Some? then None else t.recorded.value.value))
  }

  // ----- the invariant -----

  ghost predicate ChargedFor(charges: seq<Charge>, i: nat, output: Option<Value>) {
    exists c :: c in charges && c.hop == i && c.output == output
  }

  ghost predicate Uncharged(charges: seq<Charge>, i: nat) { forall c :: c in charges ==> c.hop != i }

  /** Where a hop is fits what has come back for it. */
  predicate StageFits(h: Hop, t: Told, metered: bool) {
    && (h.stage.Authorizing? <==> t.auth.None? && (t.hosted || t.missing.code != "DEVICE_NOT_FOUND"))
    && (h.stage.Authorizing? ==> h.stage.missing == if t.hosted then None else Some(t.missing.message))
    && (h.stage.AtCallee? <==> Passed(t) && t.served.None?)
    && (h.stage.Metering? <==> Earned(t, h.request, metered) && t.recorded.None?)
    && (h.stage.Metering? ==> h.stage.output == t.served.value.value)
  }

  /** Nothing is called back that was not asked for. */
  predicate InStep(h: Hop, t: Told, metered: bool) {
    && (!t.hosted && t.missing.code == "DEVICE_NOT_FOUND" ==> t.auth.None?)
    && (t.served.Some? || t.expired ==> Passed(t))
    && (t.recorded.Some? ==> Earned(t, h.request, metered))
  }

  ghost predicate HopOk(s: State, i: nat)
    requires i < |s.hops| == |s.told|
  {
    var h, t := s.hops[i], s.told[i];
    && StageFits(h, t, s.metered) && InStep(h, t, s.metered) && h.reply == Expected(t, h.request, s.metered)
    && (if Earned(t, h.request, s.metered) then ChargedFor(s.charges, i, t.served.value.value) else Uncharged(s.charges, i))
  }

  ghost predicate Inv(s: State) {
    && Sized(s)
    && (forall i :: 0 <= i < |s.hops| ==> HopOk(s, i))
    && (forall c | c in s.charges ::
        c.hop < |s.hops| && s.hops[c.hop].request.billingKey == Some(c.key) && s.hops[c.hop].request.tool == c.tool)
    && (forall i, j :: 0 <= i < j < |s.charges| ==> s.charges[i].hop != s.charges[j].hop)
  }

  lemma OtherHop(charges: seq<Charge>, c: Charge, i: nat)
    requires c.hop != i
    ensures Uncharged(charges, i) ==> Uncharged(charges + [c], i)
    ensures forall output :: ChargedFor(charges, i, output) ==> ChargedFor(charges + [c], i, output)
  {
    forall output | ChargedFor(charges, i, output) ensures ChargedFor(charges + [c], i, output) {
      var x :| x in charges && x.hop == i && x.output == output;
      assert x in charges + [c];
    }
  }

  lemma MoveKeeps(s: State, s': State, i: nat)
    requires Inv(s) && Sized(s') && i < |s.hops| == |s'.hops| && s' == Set(s, i, s'.hops[i], s'.told[i]) && HopOk(s', i)
    requires s'.hops[i].request == s.hops[i].request
    ensures Inv(s')
  {
    forall g | 0 <= g < |s'.hops| ensures HopOk(s', g) { assert HopOk(s, g); }
  }

  lemma ChargeKeeps(s: State, s': State, i: nat, data: Option<Value>)
    requires Inv(s) && i < |s.hops| && s.hops[i].stage.AtCallee? && Chargeable(s.hops[i], s.metered)
    requires s' == Next(s, ServedStep(i, None, data))
    ensures Inv(s')
  {
    var c := Charge(i, s.hops[i].request.billingKey.value, s.hops[i].request.tool, data);
    assert HopOk(s, i);
    assert s'.charges == s.charges + [c] && c in s'.charges;
    forall g | 0 <= g < |s'.hops| ensures HopOk(s', g) {
      assert HopOk(s, g);
      if g != i { OtherHop(s.charges, c, g); }
    }
  }

  lemma ServedKeeps(s: State, s': State, i: nat, errCode: Option<string>, data: Option<Value>)
    requires Inv(s) && i < |s.hops| && s.hops[i].stage.AtCallee? && s' == Next(s, ServedStep(i, errCode, data))
    ensures Inv(s')
  {
    assert HopOk(s, i);
    if errCode.None? && Chargeable(s.hops[i], s.metered) { ChargeKeeps(s, s', i, data); } else { MoveKeeps(s, s', i); }
  }

  lemma ArriveKeeps(s: State, s': State, r: Request, missing: Missing)
    requires Inv(s) && s' == Next(s, ArriveStep(r, missing))
    ensures Inv(s')
  {
    forall g | 0 <= g < |s'.hops| ensures HopOk(s', g) {
      if g < |s.hops| { assert HopOk(s, g); }
    }
  }

  lemma CallbackKeeps(s: State, s': State, step: Step)
    requires Inv(s) && s' == Next(s, step) && (step.AuthorizedStep? || step.RecordedStep? || step.ExpiredStep?)
    ensures Inv(s')
  {
    if s' != s {
      assert HopOk(s, step.h);
      MoveKeeps(s, s', step.h);
    }
  }

  lemma NextKeeps(s: State, step: Step)
    requires Inv(s)
    ensures Inv(Next(s, step)) && Next(s, step).metered == s.metered
  {
    var s' := Next(s, step);
    match step
    case ArriveStep(r, missing) => ArriveKeeps(s, s', r, missing);
    case ServedStep(i, err, data) => if i < |s.hops| && s.hops[i].stage.AtCallee? { ServedKeeps(s, s', i, err, data); }
    case HostsStep(_) =>
      forall g | 0 <= g < |s'.hops| ensures HopOk(s', g) { assert HopOk(s, g); }
    case _ => CallbackKeeps(s, s', step);
  }

  lemma {:induction false} EveryRun(metered: bool, steps: seq<Step>)
    ensures Inv(Exec(metered, steps)) && Exec(metered, steps).metered == metered
    decreases |steps|
  {
    if steps != [] {
      EveryRun(metered, steps[..|steps| - 1]);
      NextKeeps(Exec(metered, steps[..|steps| - 1]), steps[|steps| - 1]);
    }
  }

  // ----- the results -----

  /** In every run, each charge is for one hop, at the key and for the tool of that hop's own message, and no hop has two. */
  lemma {:induction false} ChargedOnceToOwnKey(metered: bool, steps: seq<Step>, i: nat)
    requires i < |Exec(metered, steps).charges|
    ensures var s := Exec(metered, steps); var c := s.charges[i];
      && c.hop < |s.hops| && s.hops[c.hop].request.billingKey == Some(c.key) && s.hops[c.hop].request.tool == c.tool
      && Passed(s.told[c.hop])
      && forall j :: 0 <= j < |s.charges| && j != i ==> s.charges[j].hop != c.hop
  {
    EveryRun(metered, steps);
    var s := Exec(metered, steps);
    assert s.charges[i] in s.charges;
    assert HopOk(s, s.charges[i].hop);
  }

  /** In every run, a hop is charged exactly if its callee has succeeded and there is a key to charge, answered or not. */
  lemma {:induction false} ChargedIffEarned(metered: bool, steps: seq<Step>, i: nat)
    requires i < |Exec(metered, steps).hops|
    ensures var s := Exec(metered, steps);
      Uncharged(s.charges, i) <==> !Earned(s.told[i], s.hops[i].request, metered)
  {
    EveryRun(metered, steps);
    var s := Exec(metered, steps);
    assert HopOk(s, i);
    if Earned(s.told[i], s.hops[i].request, metered) {
      var c :| c in s.charges && c.hop == i && c.output == s.told[i].served.value.value;
    }
  }

  /**
   In every run, a hop has been answered exactly with what the callbacks that came back for it call
   for, and has not been answered while they call for nothing; it is at its callee exactly while it
   was hosted, was authorized without an error and has not come back.
   */
  lemma {:induction false} AnsweredAsCalledFor(metered: bool, steps: seq<Step>, i: nat)
    requires i < |Exec(metered, steps).hops|
    ensures var s := Exec(metered, steps); var h, t := s.hops[i], s.told[i];
      && h.reply == Expected(t, h.request, metered)
      && (h.stage.AtCallee? <==> Passed(t) && t.served.None?)
      && (h.stage.Metering? <==> Earned(t, h.request, metered) && t.recorded.None?)
  {
    EveryRun(metered, steps);
    assert HopOk(Exec(metered, steps), i);
  }

  /**
   In every run, a hop whose authorization was refused is answered with exactly that error, and one
   that arrived for a device nobody hosts with what is said of that device; neither has been served
   or charged.
   */
  lemma {:induction false} RefusedNeverServed(metered: bool, steps: seq<Step>, i: nat)
    requires i < |Exec(metered, steps).hops|
    requires var t := Exec(metered, steps).told[i]; !t.hosted || (t.auth.Some? && t.auth.value.error.Some?)
    ensures var s := Exec(metered, steps); var h, t := s.hops[i], s.told[i];
      && t.served.None? && Uncharged(s.charges, i) && !t.expired
      && (t.auth.Some? && t.auth.value.error.Some? ==> h.reply == Some(Reply(t.auth.value.error, None, None)))
      && (t.auth.Some? && t.auth.value.error.None? ==> h.reply == Some(Reply(Some(t.missing.message), None, None)))
      && (t.auth.None? && t.missing.code == "DEVICE_NOT_FOUND" ==> h.reply == Some(Reply(Some("device not found in map"), None, None)))
  {
    EveryRun(metered, steps);
    assert HopOk(Exec(metered, steps), i);
  }

  /**
   In every metered run: a hop answered with success was charged and got the callee's output; a hop
   answered with an error was charged exactly if its timer had expired first and its callee
   succeeded all the same, with a key to charge.
   */
  lemma {:induction false} AnswersMatchCharges(steps: seq<Step>, i: nat)
    requires i < |Exec(true, steps).hops| && Exec(true, steps).hops[i].reply.Some?
    ensures var s := Exec(true, steps); var h, t := s.hops[i], s.told[i]; var reply := h.reply.value;
      if reply.error.None? then !t.expired && ChargedFor(s.charges, i, reply.data)
      else (!Uncharged(s.charges, i) <==>
            t.expired && t.served.Some? && t.served.value.error.None? && h.request.billingKey.Some?)
  {
    EveryRun(true, steps);
    var s := Exec(true, steps);
    assert HopOk(s, i);
    ChargedIffEarned(true, steps, i);
  }

  /** A hop that failed and is charged: its timer expires before its callee succeeds. */
  lemma {:induction false} FailedAndCharged() returns (steps: seq<Step>)
    ensures var s := Exec(true, steps);
      && |s.hops| == 1 && s.hops[0].reply == Some(Reply(Some(DEVICE_NOT_RESPONDING), None, None))
      && |s.charges| == 1 && s.charges[0].hop == 0
  {
    var r := Request(Some("a"), Some("k"), "d", "t");
    steps := [HostsStep({"d"}), ArriveStep(r, Missing("", "")), AuthorizedStep(0, None), ExpiredStep(0), ServedStep(0, None, None)];
    var s0, s1, s2, s3, s4, s5 := ExecFive(steps);
    HopArrives(s0, s1, s2, s3, r);
    HopExpires(s3, s4, s5, r);
  }

  lemma {:induction false} ExecFive(steps: seq<Step>) returns (s0: State, s1: State, s2: State, s3: State, s4: State, s5: State)
    requires |steps| == 5
    ensures Sized(s0) && Sized(s1) && Sized(s2) && Sized(s3) && Sized(s4) && s0 == State(true, {}, [], [], [])
    ensures s1 == Next(s0, steps[0]) && s2 == Next(s1, steps[1]) && s3 == Next(s2, steps[2])
    ensures s4 == Next(s3, steps[3]) && s5 == Next(s4, steps[4]) && s5 == Exec(true, steps)
  {
    s0, s1, s2 := Exec(true, steps[..0]), Exec(true, steps[..1]), Exec(true, steps[..2]);
    s3, s4, s5 := Exec(true, steps[..3]), Exec(true, steps[..4]), Exec(true, steps[..5]);
    assert steps[..5] == steps;
    ExecNext(steps, 0);
    ExecNext(steps, 1);
    ExecNext(steps, 2);
    ExecNext(steps, 3);
    ExecNext(steps, 4);
  }

  ghost predicate OneOut(s: State, r: Request) {
    && s.metered && s.charges == [] && s.hops == [Hop(r, AtCallee, None)]
    && s.told == [Told(true, Missing("", ""), Some(Callback(None, None)), None, None, false)]
  }

  lemma {:induction false} HopArrives(s0: State, s1: State, s2: State, s3: State, r: Request)
    requires s0 == State(true, {}, [], [], []) && r.deviceID == "d" && s1 == Next(s0, HostsStep({"d"}))
    requires s2 == Next(s1, ArriveStep(r, Missing("", ""))) && s3 == Next(s2, AuthorizedStep(0, None))
    ensures OneOut(s3, r)
  {
    assert s2.hops == [Hop(r, Authorizing(None), None)];
  }

  lemma {:induction false} HopExpires(s3: State, s4: State, s5: State, r: Request)
    requires OneOut(s3, r) && r.billingKey.Some?
    requires s4 == Next(s3, ExpiredStep(0)) && s5 == Next(s4, ServedStep(0, None, None))
    ensures |s5.hops| == 1 && s5.hops[0].reply == Some(Reply(Some(DEVICE_NOT_RESPONDING), None, None))
    ensures |s5.charges| == 1 && s5.charges[0].hop == 0
  {
    assert s4.hops[0].reply.Some? && s4.hops[0].stage == AtCallee;
  }

  lemma {:induction false} ExecNext(steps: seq<Step>, n: nat)
    requires n < |steps|
    ensures Exec(true, steps[..n + 1]) == Next(Exec(true, steps[..n]), steps[n])
  {
    assert steps[..n + 1][..n] == steps[..n];
  }
}
