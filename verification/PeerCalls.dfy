/**
 No call is lost or answered twice on its way to a channel: in every run, each call a module
 has made is in exactly one place, either waiting for its request to be answered or settled
 by one event (released onto a channel, failed with the denial's code, or gone).
 */
module PeerCalls {
  import opened Wrappers
  import opened PeerBrokering

  type Waiting = map<At, seq<nat>>

  datatype Place = Queued(h: At, i: nat) | Logged(i: nat)

  /** The call an event settles. */
  function CallOf(ev: Event): Option<nat> {
    match ev
    case Released(id, _) => Some(id)
    case Misdirected(id) => Some(id)
    case Gone(id) => Some(id)
    case Failed(id, _) => Some(id)
    case _ => None
  }

  ghost predicate Holds(waiting: Waiting, log: seq<Event>, at: Place, id: nat) {
    match at
    case Queued(h, i) => h in waiting && i < |waiting[h]| && waiting[h][i] == id
    case Logged(i) => i < |log| && CallOf(log[i]) == Some(id)
  }

  ghost predicate Somewhere(waiting: Waiting, log: seq<Event>, id: nat) {
    exists at: Place :: Holds(waiting, log, at, id)
  }

  /** Every call made is in some place, and no call is in two. */
  ghost predicate Placed(waiting: Waiting, log: seq<Event>, calls: nat) {
    && (forall at: Place, id: nat :: Holds(waiting, log, at, id) ==> id < calls)
    && (forall at: Place, at2: Place, id: nat :: Holds(waiting, log, at, id) && Holds(waiting, log, at2, id) ==> at == at2)
    && (forall id: nat :: id < calls ==> Somewhere(waiting, log, id))
  }

  // ----- the four ways the places change -----

  /** Events that settle no call. */
  lemma {:induction false} OtherEvents(waiting: Waiting, log: seq<Event>, calls: nat, es: seq<Event>)
    requires Placed(waiting, log, calls)
    requires forall i :: 0 <= i < |es| ==> CallOf(es[i]).None?
    ensures Placed(waiting, log + es, calls)
  {
    forall at: Place, id: nat ensures Holds(waiting, log + es, at, id) <==> Holds(waiting, log, at, id) {
    }
    forall id: nat | id < calls ensures Somewhere(waiting, log + es, id) {
      assert Somewhere(waiting, log, id);
      var at: Place :| Holds(waiting, log, at, id);
      assert Holds(waiting, log + es, at, id);
    }
  }

  lemma {:induction false} Enqueued(waiting: Waiting, log: seq<Event>, calls: nat, h: At, waiting': Waiting)
    requires Placed(waiting, log, calls)
    requires waiting' == waiting[h := Queue(waiting, h) + [calls]]
    ensures Placed(waiting', log, calls + 1)
  {
    var last := Queued(h, |Queue(waiting, h)|);
    forall at: Place, id: nat
      ensures Holds(waiting', log, at, id) <==> if at == last then id == calls else Holds(waiting, log, at, id)
    {
    }
    forall id: nat | id < calls + 1 ensures Somewhere(waiting', log, id) {
      if id == calls {
        assert Holds(waiting', log, last, id);
      } else {
        assert Somewhere(waiting, log, id);
        var at: Place :| Holds(waiting, log, at, id);
        assert Holds(waiting', log, at, id);
      }
    }
  }

  lemma {:induction false} Settled(waiting: Waiting, log: seq<Event>, calls: nat, ev: Event)
    requires Placed(waiting, log, calls) && CallOf(ev) == Some(calls)
    ensures Placed(waiting, log + [ev], calls + 1)
  {
    var last := Logged(|log|);
    forall at: Place, id: nat
      ensures Holds(waiting, log + [ev], at, id) <==> if at == last then id == calls else Holds(waiting, log, at, id)
    {
    }
    forall id: nat | id < calls + 1 ensures Somewhere(waiting, log + [ev], id) {
      if id == calls {
        assert Holds(waiting, log + [ev], last, id);
      } else {
        assert Somewhere(waiting, log, id);
        var at: Place :| Holds(waiting, log, at, id);
        assert Holds(waiting, log + [ev], at, id);
      }
    }
  }

  ghost predicate Settles(es: seq<Event>, ids: seq<nat>) {
    |es| == |ids| && forall i :: 0 <= i < |ids| ==> CallOf(es[i]) == Some(ids[i])
  }

  /** Where the call now in place `at` was before the calls queued at `h` were settled. */
  function Before(at: Place, h: At, n: nat): Place {
    if at.Logged? && at.i >= n then Queued(h, at.i - n) else at
  }

  lemma {:induction false} Flushed(waiting: Waiting, log: seq<Event>, calls: nat, h: At, es: seq<Event>)
    requires Placed(waiting, log, calls) && h in waiting && Settles(es, waiting[h])
    ensures Placed(waiting - {h}, log + es, calls)
  {
    var n := |log|;
    forall at: Place, id: nat | Holds(waiting - {h}, log + es, at, id)
      ensures Holds(waiting, log, Before(at, h, n), id)
    {
    }
    forall at: Place, at2: Place, id: nat | Holds(waiting - {h}, log + es, at, id) && Holds(waiting - {h}, log + es, at2, id)
      ensures at == at2
    {
      assert Before(at, h, n) == Before(at2, h, n);
    }
    forall id: nat | id < calls ensures Somewhere(waiting - {h}, log + es, id) {
      assert Somewhere(waiting, log, id);
      var at: Place :| Holds(waiting, log, at, id);
      assert Holds(waiting - {h}, log + es, if at.Queued? && at.h == h then Logged(n + at.i) else at, id);
    }
  }

  // ----- the steps -----

  ghost predicate AllPlaced(s: Sys) { Placed(s.ends.waiting, s.log, s.ends.calls) }

  lemma {:induction false} SentSettles(c: Chan, device: Device, ids: seq<nat>)
    ensures Settles(Sent(c, device, ids).1, ids)
  {
    if ids != [] { SentSettles(c, device, ids[..|ids| - 1]); }
  }

  lemma {:induction false} FlushSettles(s: Sys, s': Sys, w: Worker, device: Device, target: Option<Worker>, code: string)
      returns (es: seq<Event>)
    requires Sound(s.ends) && At(w, device) in s.ends.waiting && s' == Flush(s, w, device, target, code)
    ensures Settles(es, s.ends.waiting[At(w, device)]) && s'.log == s.log + es
    ensures s'.ends.waiting == s.ends.waiting - {At(w, device)} && s'.ends.calls == s.ends.calls
  {
    var ids := s.ends.waiting[At(w, device)];
    if target.None? {
      es := seq(|ids|, i requires 0 <= i < |ids| => Failed(ids[i], code));
    } else if Pair(w, target.value) !in s.ends.slots {
      es := seq(|ids|, i requires 0 <= i < |ids| => Gone(ids[i]));
    } else {
      var c := s.ends.chans[s.ends.slots[Pair(w, target.value)]];
      SentSettles(c, device, ids);
      es := Sent(c, device, ids).1;
    }
  }

  lemma {:induction false} FlushPlaced(s: Sys, s': Sys, w: Worker, device: Device, target: Option<Worker>, code: string)
    requires Sound(s.ends) && AllPlaced(s) && s' == Flush(s, w, device, target, code)
    ensures AllPlaced(s')
  {
    if At(w, device) in s.ends.waiting {
      var es := FlushSettles(s, s', w, device, target, code);
      Flushed(s.ends.waiting, s.log, s.ends.calls, At(w, device), es);
    }
  }

  lemma {:induction false} CallQueues(s: Sys, s': Sys, w: Worker, device: Device, key: Key)
    requires Sound(s.ends) && s' == CallDevice(s, w, device, key) && FastPath(s.ends, w, device).None?
    ensures s'.log == s.log && s'.ends.calls == s.ends.calls + 1
    ensures s'.ends.waiting == s.ends.waiting[At(w, device) := Queue(s.ends.waiting, At(w, device)) + [s.ends.calls]]
  {
    if At(w, device) !in s.ends.waiting {
      assert Queue(s.ends.waiting, At(w, device)) + [s.ends.calls] == [s.ends.calls];
    }
  }

  lemma {:induction false} CallSends(s: Sys, s': Sys, w: Worker, device: Device, key: Key) returns (ev: Event)
    requires Sound(s.ends) && s' == CallDevice(s, w, device, key) && FastPath(s.ends, w, device).Some?
    ensures s'.ends.waiting == s.ends.waiting && s'.ends.calls == s.ends.calls + 1
    ensures CallOf(ev) == Some(s.ends.calls) && s'.log == s.log + [ev]
  {
    var c := FastPath(s.ends, w, device).value;
    SentSettles(c, device, [s.ends.calls]);
    ev := Sent(c, device, [s.ends.calls]).1[0];
    assert Sent(c, device, [s.ends.calls]).1 == [ev];
  }

  lemma {:induction false} CallPlaced(s: Sys, s': Sys, w: Worker, device: Device, key: Key)
    requires Sound(s.ends) && AllPlaced(s) && s' == CallDevice(s, w, device, key)
    ensures AllPlaced(s')
  {
    if FastPath(s.ends, w, device).Some? {
      var ev := CallSends(s, s', w, device, key);
      Settled(s.ends.waiting, s.log, s.ends.calls, ev);
    } else {
      CallQueues(s, s', w, device, key);
      Enqueued(s.ends.waiting, s.log, s.ends.calls, At(w, device), s'.ends.waiting);
    }
  }

  /** The step settles no call and makes none. */
  ghost predicate Aside(s: Sys, s': Sys, es: seq<Event>) {
    && s'.ends.waiting == s.ends.waiting && s'.ends.calls == s.ends.calls
    && s'.log == s.log + es && forall i :: 0 <= i < |es| ==> CallOf(es[i]).None?
  }

  lemma {:induction false} AsidePlaced(s: Sys, s': Sys, es: seq<Event>)
    requires AllPlaced(s) && Aside(s, s', es)
    ensures AllPlaced(s')
  {
    OtherEvents(s.ends.waiting, s.log, s.ends.calls, es);
  }

  lemma {:induction false} AuthAside(s: Sys, s': Sys, i: nat, ok: bool, code: string) returns (es: seq<Event>)
    requires i < |s.main.checks| && s' == Authenticated(s, i, ok, code)
    ensures Aside(s, s', es)
  {
    es := s'.log[|s.log|..];
  }

  lemma {:induction false} MainAside(s: Sys, s': Sys, w: Worker, limited: bool, missing: string)
    requires s' == MainReceives(s, w, limited, missing)
    ensures Aside(s, s', [])
  {
  }

  lemma {:induction false} DispatchAside(s: Sys, s': Sys, c: nat) returns (es: seq<Event>)
    requires c < |s.ends.chans| && s' == Dispatch(s, s.ends.chans[c])
    ensures Aside(s, s', es)
  {
    es := s'.log[|s.log|..];
  }

  lemma {:induction false} HandledPlaced(s: Sys, s': Sys, w: Worker, m: ToWorker)
    requires Sound(s.ends) && AllPlaced(s) && s' == WorkerHandles(s, w, m)
    ensures AllPlaced(s')
  {
    match m
    case ChannelGrant(d, t, p) => FlushPlaced(s.(ends := Attach(s.ends, w, d, t, p)), s', w, d, Some(t), "");
    case ChannelDeny(d, code) => FlushPlaced(s, s', w, d, None, code);
    case ChannelOpen(_, _, _, _) => AsidePlaced(s, s', []);
    case ChannelAllow(_, _, _, _) => AsidePlaced(s, s', []);
    case Invalidate(_, closes) => AsidePlaced(s, s', if closes.Some? then [Invalidated(closes.value)] else []);
  }

  lemma {:induction false} SmallAside(s: Sys, s': Sys, step: Step)
    requires Sound(s.ends) && s' == Next(s, step)
    requires !step.CallStep? && !step.MainStep? && !step.AuthStep? && !step.WorkerStep? && !step.DispatchStep?
    ensures Aside(s, s', [])
  {
  }

  lemma {:induction false} NextPlaced(s: Sys, s': Sys, step: Step)
    requires Sound(s.ends) && AllPlaced(s) && s' == Next(s, step)
    ensures AllPlaced(s')
  {
    match step
    case CallStep(w, d, k) => CallPlaced(s, s', w, d, k);
    case MainStep(w, limited, missing) =>
      MainAside(s, s', w, limited, missing);
      AsidePlaced(s, s', []);
    case AuthStep(i, ok, code) =>
      if i < |s.main.checks| {
        var es := AuthAside(s, s', i, ok, code);
        AsidePlaced(s, s', es);
      }
    case WorkerStep(w) =>
      if Queue(s.inbox, w) != [] {
        HandledPlaced(s.(inbox := s.inbox[w := s.inbox[w][1..]]), s', w, s.inbox[w][0]);
      }
    case DispatchStep(c) =>
      if c < |s.ends.chans| {
        var es := DispatchAside(s, s', c);
        AsidePlaced(s, s', es);
      }
    case _ =>
      SmallAside(s, s', step);
      AsidePlaced(s, s', []);
  }

  lemma {:induction false} EveryRunPlaced(steps: seq<Step>)
    ensures var s := Exec(steps); Placed(s.ends.waiting, s.log, s.ends.calls)
    decreases |steps|
  {
    if steps != [] {
      EveryRunPlaced(steps[..|steps| - 1]);
      NextPlaced(Exec(steps[..|steps| - 1]), Exec(steps), steps[|steps| - 1]);
    }
  }
}
