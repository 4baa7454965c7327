/**
 One module's read/write lock (lib/fs-broker/rwlock.js:4-33), as a value and its transitions,
 and the class that performs them in place.  Tickets are numbered in arrival order; `wants[t]`
 says whether ticket `t` is exclusive.  `grants` and `held` are history: the tickets resolved,
 in order, and those not yet released.  A holder releases once, as what it acquired.
 */
module RwLocks {
  datatype Lock = Lock(readers: int, writer: bool, queue: seq<nat>, wants: seq<bool>, grants: seq<nat>, held: set<nat>)

  function Start(): Lock { Lock(0, false, [], [], [], {}) }

  /** Whether the head of a queue may go. */
  predicate Free(l: Lock) {
    l.queue != [] && l.queue[0] < |l.wants| && !l.writer && !(l.wants[l.queue[0]] && l.readers > 0)
  }

  /** The head of the queue gets the lock. */
  function GrantHead(l: Lock): Lock
    requires Free(l)
  {
    var t := l.queue[0];
    l.(queue := l.queue[1..], writer := l.wants[t], readers := if l.wants[t] then l.readers else l.readers + 1,
       grants := l.grants + [t], held := l.held + {t})
  }

  function Pumped(l: Lock): Lock
    decreases |l.queue|
  {
    if Free(l) then Pumped(GrantHead(l)) else l
  }

  function Acquired(l: Lock, exclusive: bool): Lock {
    Pumped(l.(queue := l.queue + [|l.wants|], wants := l.wants + [exclusive]))
  }

  function Released(l: Lock, t: nat): Lock
    requires t < |l.wants|
  {
    Pumped(if l.wants[t] then l.(writer := false, held := l.held - {t}) else l.(readers := l.readers - 1, held := l.held - {t}))
  }

  datatype Event = AcquireEvent(exclusive: bool) | ReleaseEvent(ticket: nat)

  function Apply(l: Lock, ev: Event): Lock {
    match ev
    case AcquireEvent(x) => Acquired(l, x)
    case ReleaseEvent(t) => if t in l.held && t < |l.wants| then Released(l, t) else l
  }

  function Exec(evs: seq<Event>): Lock {
    if evs == [] then Start() else Apply(Exec(evs[..|evs| - 1]), evs[|evs| - 1])
  }

  // ----- the invariant -----

  function Readers(l: Lock): set<nat> { set t | t in l.held && t < |l.wants| && !l.wants[t] }

  /** Grants, then the queue, are the tickets in arrival order; what is held has been granted. */
  ghost predicate InOrder(l: Lock) {
    && |l.grants| + |l.queue| == |l.wants|
    && (forall i :: 0 <= i < |l.grants| ==> l.grants[i] == i)
    && (forall i :: 0 <= i < |l.queue| ==> l.queue[i] == |l.grants| + i)
    && (forall t :: t in l.held ==> t < |l.grants|)
  }

  /** The two fields say who holds the lock, and a writer holds it alone. */
  ghost predicate Counted(l: Lock) {
    && l.readers == |Readers(l)|
    && (l.writer <==> exists t :: t in l.held && t < |l.wants| && l.wants[t])
    && (l.writer ==> |l.held| == 1)
  }

  ghost predicate Inv(l: Lock) { InOrder(l) && Counted(l) }

  lemma {:induction false} NoReaders(l: Lock)
    requires InOrder(l) && Counted(l) && l.readers <= 0 && !l.writer
    ensures l.held == {}
  {
  }

  lemma {:induction false} GrantKeeps(l: Lock)
    requires Inv(l) && Free(l)
    ensures Inv(GrantHead(l))
  {
    var t, l' := l.queue[0], GrantHead(l);
    assert t == |l.grants| && t !in l.held;
    if l.wants[t] {
      NoReaders(l);
      assert l'.held == {t} && Readers(l') == {};
    } else {
      assert Readers(l') == Readers(l) + {t};
    }
  }

  lemma {:induction false} PumpKeeps(l: Lock)
    requires Inv(l)
    ensures Inv(Pumped(l)) && !Free(Pumped(l)) && Pumped(l).wants == l.wants && l.grants <= Pumped(l).grants && l.held <= Pumped(l).held
    decreases |l.queue|
  {
    if Free(l) {
      GrantKeeps(l);
      PumpKeeps(GrantHead(l));
    }
  }

  lemma {:induction false} AcquireKeeps(l: Lock, exclusive: bool)
    requires Inv(l)
    ensures Inv(Acquired(l, exclusive)) && !Free(Acquired(l, exclusive))
  {
    var l1 := l.(queue := l.queue + [|l.wants|], wants := l.wants + [exclusive]);
    assert Readers(l1) == Readers(l);
    assert forall t :: t in l.held ==> l1.wants[t] == l.wants[t];
    PumpKeeps(l1);
  }

  lemma {:induction false} ReleaseKeeps(l: Lock, t: nat)
    requires Inv(l) && t in l.held && t < |l.wants|
    ensures Inv(Released(l, t)) && !Free(Released(l, t))
  {
    var l1 := if l.wants[t] then l.(writer := false, held := l.held - {t}) else l.(readers := l.readers - 1, held := l.held - {t});
    if l.wants[t] {
      assert l.writer;
      assert l.held == {t} by { Sole(l.held, t); }
      assert Readers(l) == {} && Readers(l1) == {};
    } else {
      assert t in Readers(l);
      assert Readers(l1) == Readers(l) - {t};
      if l.writer {
        var u :| u in l.held && u < |l.wants| && l.wants[u];
        Sole(l.held, t);
        assert false;
      }
    }
    PumpKeeps(l1);
  }

  lemma {:induction false} Sole(s: set<nat>, t: nat)
    requires t in s && |s| == 1
    ensures s == {t}
  {
    assert |s - {t}| == 0;
    assert s == (s - {t}) + {t};
  }

  lemma {:induction false} EveryRun(evs: seq<Event>)
    ensures Inv(Exec(evs)) && !Free(Exec(evs))
    decreases |evs|
  {
    if evs != [] {
      var l, ev := Exec(evs[..|evs| - 1]), evs[|evs| - 1];
      EveryRun(evs[..|evs| - 1]);
      match ev
      case AcquireEvent(x) => AcquireKeeps(l, x);
      case ReleaseEvent(t) => if t in l.held && t < |l.wants| { ReleaseKeeps(l, t); }
    }
  }

  // ----- the results -----

  /** In every run, two tickets held together are both shared. */
  lemma {:induction false} WriterAlone(evs: seq<Event>, t: nat, u: nat)
    requires var l := Exec(evs); t in l.held && u in l.held && t != u
    ensures var l := Exec(evs); t < |l.wants| && u < |l.wants| && !l.wants[t] && !l.wants[u] && !l.writer
  {
    var l := Exec(evs);
    EveryRun(evs);
    if l.writer {
      Sole(l.held, t);
      assert false;
    }
  }

  /** In every run, the tickets granted are a prefix of arrival order, in that order, and the rest wait in theirs. */
  lemma {:induction false} GrantsInArrivalOrder(evs: seq<Event>)
    ensures var l := Exec(evs);
      && (forall i :: 0 <= i < |l.grants| ==> l.grants[i] == i)
      && (forall i :: 0 <= i < |l.queue| ==> l.queue[i] == |l.grants| + i)
      && |l.grants| + |l.queue| == |l.wants|
  {
    EveryRun(evs);
  }

  /** The two cannot be held together. */
  predicate Conflict(l: Lock, j: nat, k: nat) { j < |l.wants| && k < |l.wants| && (l.wants[j] || l.wants[k]) }

  /**
   In every run, a ticket that waits is, or is behind, one that cannot be held together with an
   earlier one that is still held: no wake-up is lost, and readers are granted together.
   */
  lemma {:induction false} WaitsOnlyForHolders(evs: seq<Event>, k: nat)
    requires var l := Exec(evs); k < |l.wants| && k !in l.grants
    ensures exists j, first :: j < first <= k && j in Exec(evs).held && first !in Exec(evs).grants && Conflict(Exec(evs), j, first)
  {
    var l := Exec(evs);
    EveryRun(evs);
    GrantedIff(l, k);
    GrantedIff(l, |l.grants|);
    var j := Blocker(l);
    assert Conflict(l, j, |l.grants|);
  }

  lemma GrantedIff(l: Lock, k: nat)
    requires InOrder(l)
    ensures k in l.grants <==> k < |l.grants|
  {
    if k < |l.grants| { assert l.grants[k] == k; }
  }

  lemma {:induction false} Blocker(l: Lock) returns (j: nat)
    requires Inv(l) && !Free(l) && l.queue != []
    ensures j in l.held && j < |l.grants| && Conflict(l, j, |l.grants|)
  {
    assert l.queue[0] == |l.grants|;
    if l.writer {
      j :| j in l.held && j < |l.wants| && l.wants[j];
    } else {
      assert Readers(l) != {};
      j :| j in Readers(l);
    }
  }

  // ----- in its own form -----

  class RwLock {
    var readers: int
    var writer: bool
    var queue: seq<nat>
    var wants: seq<bool>
    ghost var grants: seq<nat>
    ghost var held: set<nat>

    ghost function State(): Lock
      reads this
    {
      Lock(readers, writer, queue, wants, grants, held)
    }

    /** Everything queued has arrived. */
    ghost predicate Valid()
      reads this
    {
      forall i :: 0 <= i < |queue| ==> queue[i] < |wants|
    }

    constructor ()
      ensures State() == Start() && Valid()
    {
      readers, writer, queue, wants, grants, held := 0, false, [], [], [], {};
    }

    method Acquire(exclusive: bool) returns (ticket: nat)
      requires Valid()
      modifies this
      ensures Valid() && State() == Acquired(old(State()), exclusive) && ticket == |old(wants)|
    {
      ticket := |wants|;
      queue, wants := queue + [ticket], wants + [exclusive];
      Pump();
    }

    method Release(ticket: nat)
      requires Valid() && ticket < |wants|
      modifies this
      ensures Valid() && State() == Released(old(State()), ticket)
    {
      if wants[ticket] { writer := false; } else { readers := readers - 1; }
      held := held - {ticket};
      Pump();
    }

    method Pump()
      requires Valid()
      modifies this
      ensures Valid() && State() == Pumped(old(State()))
    {
      while |queue| > 0 && !writer
        invariant Valid()
        invariant Pumped(State()) == Pumped(old(State()))
        decreases |queue|
      {
        var next := queue[0];
        if wants[next] && readers > 0 { return; }
        assert State().queue[0] == next && Free(State());
        ghost var l := GrantHead(State());
        queue := queue[1..];
        if wants[next] { writer := true; } else { readers := readers + 1; }
        grants, held := grants + [next], held + {next};
        assert State() == l;
        if wants[next] { return; }
      }
    }
  }
}
