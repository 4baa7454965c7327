/**
 Requests from the main thread to one worker (lib/worker-message.js:194-262), as a value and
 its transitions.  The callback passed with a request is code: here a script of what it does
 when it is run, which may be to send further requests with callbacks of their own.  Whoever
 runs a callback runs it to its end before going on.

 `calls` counts the requests sent with a callback, and each is known by its number.
 */
module WorkerRequests {
  import opened Wrappers

  datatype Reason = Reason(code: string, name: string, reason: string)

  datatype Script =
    | Done
    | Send(callback: Script, rest: Script)       // a request with a callback
    | Notify(rest: Script)                       // a message that needs no reply
    | End(reason: Reason, rest: Script)          // calls endWith itself

  datatype Outcome = Ended(reason: Reason) | Replied(errMsg: Option<string>, data: string)

  /** One run of a callback. */
  datatype Answer = Answer(call: nat, outcome: Outcome)

  datatype Pending = Pending(call: nat, callback: Script)

  datatype State = State(
    ended: Option<Reason>, msgQueue: map<nat, Pending>, msgID: nat,
    posted: nat, calls: nat, answers: seq<Answer>)

  function Start(): State { State(None, map[], 0, 0, 0, []) }

  // ----- once the worker has ended -----

  function AnswerWith(s: State, call: nat, outcome: Outcome): State {
    s.(answers := s.answers + [Answer(call, outcome)])
  }

  /** A callback runs after the end: whatever it sends is answered at once. */
  function RunEnded(s: State, reason: Reason, k: Script): State
    decreases k
  {
    match k
    case Done => s
    case Send(callback, rest) =>
      var s1 := AnswerWith(s.(calls := s.calls + 1), s.calls, Ended(reason));
      RunEnded(RunEnded(s1, reason, callback), reason, rest)
    case Notify(rest) => RunEnded(s, reason, rest)
    case End(_, rest) => RunEnded(s, reason, rest)
  }

  /** The callbacks of `pending` below id `n`, in id order. */
  function AnswerPending(s: State, reason: Reason, pending: map<nat, Pending>, n: nat): State {
    if n == 0 then s
    else
      var s1 := AnswerPending(s, reason, pending, n - 1);
      if n - 1 !in pending then s1
      else RunEnded(AnswerWith(s1, pending[n - 1].call, Ended(reason)), reason, pending[n - 1].callback)
  }

  function EndWith(s: State, reason: Reason): State {
    if s.ended.Some? then s
    else AnswerPending(s.(ended := Some(reason), msgQueue := map[]), reason, s.msgQueue, s.msgID)
  }

  // ----- while the worker lives -----

  function Enqueue(s: State, callback: Script): State {
    s.(msgQueue := s.msgQueue[s.msgID := Pending(s.calls, callback)], msgID := s.msgID + 1,
       posted := s.posted + 1, calls := s.calls + 1)
  }

  function RunLive(s: State, k: Script): State
    decreases k
  {
    match k
    case Done => s
    case Send(callback, rest) => RunLive(Enqueue(s, callback), rest)
    case Notify(rest) => RunLive(s.(posted := s.posted + 1), rest)
    case End(reason, rest) =>
      var s1 := EndWith(s, reason);
      if s1.ended.Some? then RunEnded(s1, s1.ended.value, rest) else s1
  }

  function Run(s: State, k: Script): State {
    if s.ended.Some? then RunEnded(s, s.ended.value, k) else RunLive(s, k)
  }

  /** The callback is forgotten only after it has run. */
  function Reply(s: State, id: nat, outcome: Outcome): State {
    if id !in s.msgQueue then s
    else
      var s1 := Run(AnswerWith(s, s.msgQueue[id].call, outcome), s.msgQueue[id].callback);
      s1.(msgQueue := s1.msgQueue - {id})
  }

  // ----- runs -----

  /** What happens on the main thread: code that may send, a reply message, the worker's exit. */
  datatype Event = CodeEvent(code: Script) | ReplyEvent(id: nat, errMsg: Option<string>, data: string) | ExitEvent(reason: Reason)

  function Apply(s: State, ev: Event): State {
    match ev
    case CodeEvent(k) => Run(s, k)
    case ReplyEvent(id, errMsg, data) => Reply(s, id, Replied(errMsg, data))
    case ExitEvent(reason) => EndWith(s, reason)
  }

  function Exec(s: State, evs: seq<Event>): State {
    if evs == [] then s else Apply(Exec(s, evs[..|evs| - 1]), evs[|evs| - 1])
  }

  // ----- every request is in one place -----

  datatype Place = Queued(id: nat) | Answered(i: nat)

  ghost predicate Holds(queue: map<nat, Pending>, answers: seq<Answer>, at: Place, call: nat) {
    match at
    case Queued(id) => id in queue && queue[id].call == call
    case Answered(i) => i < |answers| && answers[i].call == call
  }

  ghost predicate Somewhere(queue: map<nat, Pending>, answers: seq<Answer>, call: nat) {
    exists at: Place :: Holds(queue, answers, at, call)
  }

  /** Each of the first `calls` requests is waiting for its reply or has been answered once, and not both. */
  ghost predicate Once(queue: map<nat, Pending>, answers: seq<Answer>, calls: nat) {
    && (forall at: Place, call: nat :: Holds(queue, answers, at, call) ==> call < calls)
    && (forall at: Place, at2: Place, call: nat :: Holds(queue, answers, at, call) && Holds(queue, answers, at2, call) ==> at == at2)
    && (forall call: nat :: call < calls ==> Somewhere(queue, answers, call))
  }

  lemma {:induction false} OnceQueued(queue: map<nat, Pending>, answers: seq<Answer>, calls: nat, id: nat, k: Script)
    requires Once(queue, answers, calls) && id !in queue
    ensures Once(queue[id := Pending(calls, k)], answers, calls + 1)
  {
    var queue' := queue[id := Pending(calls, k)];
    forall at: Place, call: nat
      ensures Holds(queue', answers, at, call) <==> if at == Queued(id) then call == calls else Holds(queue, answers, at, call)
    {
    }
    forall call: nat | call < calls + 1 ensures Somewhere(queue', answers, call) {
      if call == calls {
        assert Holds(queue', answers, Queued(id), call);
      } else {
        assert Somewhere(queue, answers, call);
        var at: Place :| Holds(queue, answers, at, call);
        assert Holds(queue', answers, at, call);
      }
    }
  }

  lemma {:induction false} OnceAnswered(queue: map<nat, Pending>, answers: seq<Answer>, calls: nat, a: Answer)
    requires Once(queue, answers, calls) && a.call == calls
    ensures Once(queue, answers + [a], calls + 1)
  {
    var last := Answered(|answers|);
    forall at: Place, call: nat
      ensures Holds(queue, answers + [a], at, call) <==> if at == last then call == calls else Holds(queue, answers, at, call)
    {
    }
    forall call: nat | call < calls + 1 ensures Somewhere(queue, answers + [a], call) {
      if call == calls {
        assert Holds(queue, answers + [a], last, call);
      } else {
        assert Somewhere(queue, answers, call);
        var at: Place :| Holds(queue, answers, at, call);
        assert Holds(queue, answers + [a], at, call);
      }
    }
  }

  lemma {:induction false} OnceMoved(queue: map<nat, Pending>, answers: seq<Answer>, calls: nat, id: nat, a: Answer)
    requires Once(queue, answers, calls) && id in queue && a.call == queue[id].call
    ensures Once(queue - {id}, answers + [a], calls)
  {
    var last, q := Answered(|answers|), queue - {id};
    forall at: Place, call: nat
      ensures Holds(q, answers + [a], at, call) <==>
        at != Queued(id) && Holds(queue, answers, if at == last then Queued(id) else at, call)
    {
    }
    forall call: nat | call < calls ensures Somewhere(q, answers + [a], call) {
      assert Somewhere(queue, answers, call);
      var at: Place :| Holds(queue, answers, at, call);
      assert Holds(q, answers + [a], if at == Queued(id) then last else at, call);
    }
  }

  // ----- the invariant -----

  /** No callback in the script, at any depth, ends the worker itself. */
  predicate NoEnd(k: Script) {
    match k
    case Done => true
    case Send(callback, rest) => NoEnd(callback) && NoEnd(rest)
    case Notify(rest) => NoEnd(rest)
    case End(_, _) => false
  }

  ghost predicate Inv(s: State) {
    && Once(s.msgQueue, s.answers, s.calls)
    && (forall id :: id in s.msgQueue ==> id < s.msgID && NoEnd(s.msgQueue[id].callback))
    && (s.ended.Some? ==> s.msgQueue == map[])
  }

  /** Running a callback after the end answers each request it leads to, once, and touches nothing else. */
  lemma {:induction false} RunEndedOnce(s: State, s': State, reason: Reason, k: Script, queue: map<nat, Pending>)
    requires Once(queue, s.answers, s.calls) && s' == RunEnded(s, reason, k)
    ensures Once(queue, s'.answers, s'.calls)
    ensures s' == s.(answers := s'.answers, calls := s'.calls)
    ensures s.answers <= s'.answers
    ensures forall i :: |s.answers| <= i < |s'.answers| ==> s'.answers[i].outcome == Ended(reason)
    decreases k
  {
    match k
    case Done =>
    case Send(callback, rest) =>
      var s1 := AnswerWith(s.(calls := s.calls + 1), s.calls, Ended(reason));
      OnceAnswered(queue, s.answers, s.calls, Answer(s.calls, Ended(reason)));
      var s2 := RunEnded(s1, reason, callback);
      RunEndedOnce(s1, s2, reason, callback, queue);
      RunEndedOnce(s2, s', reason, rest, queue);
    case Notify(rest) => RunEndedOnce(s, s', reason, rest, queue);
    case End(_, rest) => RunEndedOnce(s, s', reason, rest, queue);
  }

  function From(pending: map<nat, Pending>, n: nat): map<nat, Pending> { map id | id in pending && id >= n :: pending[id] }

  lemma {:induction false} AnswerPendingOnce(s: State, s': State, reason: Reason, pending: map<nat, Pending>, n: nat)
    requires Once(pending, s.answers, s.calls) && s' == AnswerPending(s, reason, pending, n)
    ensures Once(From(pending, n), s'.answers, s'.calls)
    ensures s' == s.(answers := s'.answers, calls := s'.calls)
    ensures s.answers <= s'.answers
    ensures forall i :: |s.answers| <= i < |s'.answers| ==> s'.answers[i].outcome == Ended(reason)
    decreases n
  {
    if n == 0 {
      assert From(pending, 0) == pending;
    } else {
      var s1 := AnswerPending(s, reason, pending, n - 1);
      AnswerPendingOnce(s, s1, reason, pending, n - 1);
      if n - 1 !in pending {
        assert From(pending, n) == From(pending, n - 1);
      } else {
        var p := pending[n - 1];
        assert From(pending, n) == From(pending, n - 1) - {n - 1};
        OnceMoved(From(pending, n - 1), s1.answers, s1.calls, n - 1, Answer(p.call, Ended(reason)));
        RunEndedOnce(AnswerWith(s1, p.call, Ended(reason)), s', reason, p.callback, From(pending, n));
      }
    }
  }

  lemma {:induction false} EndWithKeeps(s: State, reason: Reason)
    requires Inv(s)
    ensures Inv(EndWith(s, reason)) && EndWith(s, reason).ended.Some?
  {
    if s.ended.None? {
      AnswerPendingOnce(s.(ended := Some(reason), msgQueue := map[]), EndWith(s, reason), reason, s.msgQueue, s.msgID);
      assert From(s.msgQueue, s.msgID) == map[];
    }
  }

  /** Running a callback while the worker lives queues what it sends; `hole` is the reply being handled, if any. */
  lemma {:induction false} RunLiveOnce(s: State, s': State, k: Script, hole: set<nat>)
    requires Once(s.msgQueue - hole, s.answers, s.calls) && NoEnd(k) && s.ended.None? && s' == RunLive(s, k)
    requires forall id :: id in s.msgQueue ==> id < s.msgID && NoEnd(s.msgQueue[id].callback)
    requires forall id :: id in hole ==> id < s.msgID
    ensures Once(s'.msgQueue - hole, s'.answers, s'.calls) && s'.ended.None? && s'.answers == s.answers
    ensures forall id :: id in s'.msgQueue ==> id < s'.msgID && NoEnd(s'.msgQueue[id].callback)
    ensures s.msgID <= s'.msgID
    decreases k
  {
    match k
    case Done =>
    case Send(callback, rest) =>
      var s1 := Enqueue(s, callback);
      OnceQueued(s.msgQueue - hole, s.answers, s.calls, s.msgID, callback);
      assert s1.msgQueue - hole == (s.msgQueue - hole)[s.msgID := Pending(s.calls, callback)];
      RunLiveOnce(s1, s', rest, hole);
    case Notify(rest) => RunLiveOnce(s.(posted := s.posted + 1), s', rest, hole);
  }

  lemma {:induction false} ReplyKeeps(s: State, id: nat, outcome: Outcome)
    requires Inv(s)
    ensures Inv(Reply(s, id, outcome))
  {
    if id in s.msgQueue {
      var p := s.msgQueue[id];
      var s1 := AnswerWith(s, p.call, outcome);
      OnceMoved(s.msgQueue, s.answers, s.calls, id, Answer(p.call, outcome));
      RunLiveOnce(s1, RunLive(s1, p.callback), p.callback, {id});
    }
  }

  lemma {:induction false} RunKeeps(s: State, k: Script)
    requires Inv(s) && NoEnd(k)
    ensures Inv(Run(s, k))
  {
    if s.ended.Some? {
      RunEndedOnce(s, Run(s, k), s.ended.value, k, s.msgQueue);
    } else {
      assert s.msgQueue - {} == s.msgQueue;
      RunLiveOnce(s, Run(s, k), k, {});
      assert Run(s, k).msgQueue - {} == Run(s, k).msgQueue;
    }
  }

  /** Only the worker's exit ends it. */
  predicate Proper(ev: Event) { ev.CodeEvent? ==> NoEnd(ev.code) }

  lemma {:induction false} EveryRun(evs: seq<Event>)
    requires forall i :: 0 <= i < |evs| ==> Proper(evs[i])
    ensures Inv(Exec(Start(), evs))
    ensures (exists i :: 0 <= i < |evs| && evs[i].ExitEvent?) ==> Exec(Start(), evs).ended.Some?
    decreases |evs|
  {
    if evs != [] {
      var before, ev := evs[..|evs| - 1], evs[|evs| - 1];
      EveryRun(before);
      var s := Exec(Start(), before);
      match ev {
        case CodeEvent(k) => RunKeeps(s, k); EndedStays(s, ev);
        case ReplyEvent(id, errMsg, data) => ReplyKeeps(s, id, Replied(errMsg, data)); EndedStays(s, ev);
        case ExitEvent(reason) => EndWithKeeps(s, reason);
      }
      if i :| 0 <= i < |evs| && evs[i].ExitEvent? {
        assert i < |before| ==> before[i] == evs[i];
      }
    }
  }

  lemma {:induction false} EndedStays(s: State, ev: Event)
    requires Inv(s)
    ensures s.ended.Some? ==> Apply(s, ev).ended == s.ended
  {
    if s.ended.Some? {
      match ev
      case CodeEvent(k) => RunEndedOnce(s, Run(s, k), s.ended.value, k, s.msgQueue);
      case ReplyEvent(_, _, _) =>
      case ExitEvent(_) =>
    }
  }

  // ----- the results -----

  function Times(answers: seq<Answer>, call: nat): nat {
    if answers == [] then 0
    else Times(answers[..|answers| - 1], call) + if answers[|answers| - 1].call == call then 1 else 0
  }

  lemma {:induction false} TimesOnce(queue: map<nat, Pending>, answers: seq<Answer>, n: nat, call: nat)
    requires n <= |answers|
    requires forall at: Place, at2: Place :: Holds(queue, answers, at, call) && Holds(queue, answers, at2, call) ==> at == at2
    ensures Times(answers[..n], call) <= 1
    ensures Times(answers[..n], call) == 0 <==> forall i :: 0 <= i < n ==> answers[i].call != call
    decreases n
  {
    if n > 0 {
      TimesOnce(queue, answers, n - 1, call);
      assert answers[..n][..n - 1] == answers[..n - 1];
      if answers[n - 1].call == call {
        assert Holds(queue, answers, Answered(n - 1), call);
        forall i | 0 <= i < n - 1 ensures answers[i].call != call {
          assert Answered(i) != Answered(n - 1);
          assert !Holds(queue, answers, Answered(i), call);
        }
      }
    }
  }

  /**
   In every run, each request sent with a callback is answered at most once, a request is
   unanswered exactly while it waits in the queue, and once the worker has exited each
   request ever sent, from a callback or not, has been answered exactly once.
   */
  lemma {:induction false} AnsweredExactlyOnce(evs: seq<Event>, call: nat)
    requires forall i :: 0 <= i < |evs| ==> Proper(evs[i])
    requires call < Exec(Start(), evs).calls
    ensures var s := Exec(Start(), evs);
      && Times(s.answers, call) <= 1
      && (Times(s.answers, call) == 0 <==> exists id :: id in s.msgQueue && s.msgQueue[id].call == call)
      && ((exists i :: 0 <= i < |evs| && evs[i].ExitEvent?) ==> Times(s.answers, call) == 1)
  {
    var s := Exec(Start(), evs);
    EveryRun(evs);
    TimesOnce(s.msgQueue, s.answers, |s.answers|, call);
    assert s.answers[..|s.answers|] == s.answers;
    assert Somewhere(s.msgQueue, s.answers, call);
    var at: Place :| Holds(s.msgQueue, s.answers, at, call);
    if at.Queued? {
      forall i | 0 <= i < |s.answers| ensures s.answers[i].call != call {
        assert !Holds(s.msgQueue, s.answers, Answered(i), call);
      }
    } else {
      forall id | id in s.msgQueue ensures s.msgQueue[id].call != call {
        assert !Holds(s.msgQueue, s.answers, Queued(id), call);
      }
    }
  }

  /** Every answer after the exit names the reason given at the exit. */
  lemma {:induction false} ExitReason(s: State, reason: Reason, i: nat)
    requires Inv(s) && s.ended.None?
    requires |s.answers| <= i < |EndWith(s, reason).answers|
    ensures EndWith(s, reason).answers[i].outcome == Ended(reason)
  {
    AnswerPendingOnce(s.(ended := Some(reason), msgQueue := map[]), EndWith(s, reason), reason, s.msgQueue, s.msgID);
  }

  lemma {:induction false} RunEndedGrows(s: State, reason: Reason, k: Script)
    ensures s.answers <= RunEnded(s, reason, k).answers
    decreases k
  {
    match k
    case Done =>
    case Send(callback, rest) =>
      var s1 := AnswerWith(s.(calls := s.calls + 1), s.calls, Ended(reason));
      RunEndedGrows(s1, reason, callback);
      RunEndedGrows(RunEnded(s1, reason, callback), reason, rest);
    case Notify(rest) => RunEndedGrows(s, reason, rest);
    case End(_, rest) => RunEndedGrows(s, reason, rest);
  }

  /** Request `id` is answered right after those below it and all that their callbacks led to. */
  lemma {:induction false} AnsweredInTurn(s: State, reason: Reason, pending: map<nat, Pending>, id: nat, n: nat)
    requires id < n && id in pending
    ensures AnswerPending(s, reason, pending, id).answers + [Answer(pending[id].call, Ended(reason))] <= AnswerPending(s, reason, pending, n).answers
    decreases n
  {
    if id < n - 1 { AnsweredInTurn(s, reason, pending, id, n - 1); }
    if n - 1 in pending {
      var s1, p := AnswerPending(s, reason, pending, n - 1), pending[n - 1];
      RunEndedGrows(AnswerWith(s1, p.call, Ended(reason)), reason, p.callback);
    }
  }

  /** The exit answers the pending requests in the order they were sent, each with all that its callback leads to before the next. */
  lemma {:induction false} ExitInOrder(s: State, reason: Reason, id: nat, later: nat) returns (p: nat, q: nat)
    requires Inv(s) && s.ended.None? && id < later && id in s.msgQueue && later in s.msgQueue
    ensures var answers := EndWith(s, reason).answers;
      && p < q < |answers| && answers[p] == Answer(s.msgQueue[id].call, Ended(reason))
      && answers[q] == Answer(s.msgQueue[later].call, Ended(reason))
  {
    var s0 := s.(ended := Some(reason), msgQueue := map[]);
    p, q := |AnswerPending(s0, reason, s.msgQueue, id).answers|, |AnswerPending(s0, reason, s.msgQueue, later).answers|;
    AnsweredInTurn(s0, reason, s.msgQueue, id, s.msgID);
    AnsweredInTurn(s0, reason, s.msgQueue, later, s.msgID);
    AnsweredInTurn(s0, reason, s.msgQueue, id, later);
  }

  // late and duplicate replies

  ghost predicate Retired(s: State, id: nat) { id < s.msgID && id !in s.msgQueue }

  lemma {:induction false} RunEndedQueue(s: State, reason: Reason, k: Script)
    ensures var s' := RunEnded(s, reason, k); s'.msgQueue == s.msgQueue && s'.msgID == s.msgID && s'.ended == s.ended
    decreases k
  {
    match k
    case Done =>
    case Send(callback, rest) =>
      var s1 := AnswerWith(s.(calls := s.calls + 1), s.calls, Ended(reason));
      RunEndedQueue(s1, reason, callback);
      RunEndedQueue(RunEnded(s1, reason, callback), reason, rest);
    case Notify(rest) => RunEndedQueue(s, reason, rest);
    case End(_, rest) => RunEndedQueue(s, reason, rest);
  }

  lemma {:induction false} AnswerPendingQueue(s: State, reason: Reason, pending: map<nat, Pending>, n: nat)
    ensures var s' := AnswerPending(s, reason, pending, n);
      s'.msgQueue == s.msgQueue && s'.msgID == s.msgID && s'.ended == s.ended
    decreases n
  {
    if n > 0 {
      AnswerPendingQueue(s, reason, pending, n - 1);
      var s1 := AnswerPending(s, reason, pending, n - 1);
      if n - 1 in pending {
        RunEndedQueue(AnswerWith(s1, pending[n - 1].call, Ended(reason)), reason, pending[n - 1].callback);
      }
    }
  }

  lemma {:induction false} RunLiveRetired(s: State, k: Script, id: nat)
    requires Retired(s, id)
    ensures Retired(RunLive(s, k), id)
    decreases k
  {
    match k
    case Done =>
    case Send(callback, rest) => RunLiveRetired(Enqueue(s, callback), rest, id);
    case Notify(rest) => RunLiveRetired(s.(posted := s.posted + 1), rest, id);
    case End(reason, rest) =>
      EndWithRetired(s, reason, id);
      var s1 := EndWith(s, reason);
      if s1.ended.Some? { RunEndedQueue(s1, s1.ended.value, rest); }
  }

  lemma {:induction false} EndWithRetired(s: State, reason: Reason, id: nat)
    requires Retired(s, id)
    ensures Retired(EndWith(s, reason), id)
  {
    if s.ended.None? {
      AnswerPendingQueue(s.(ended := Some(reason), msgQueue := map[]), reason, s.msgQueue, s.msgID);
    }
  }

  lemma {:induction false} RunRetired(s: State, k: Script, id: nat)
    requires Retired(s, id)
    ensures Retired(Run(s, k), id)
  {
    if s.ended.Some? { RunEndedQueue(s, s.ended.value, k); } else { RunLiveRetired(s, k, id); }
  }

  lemma {:induction false} ApplyRetired(s: State, ev: Event, id: nat)
    requires Retired(s, id)
    ensures Retired(Apply(s, ev), id)
  {
    match ev
    case CodeEvent(k) => RunRetired(s, k, id);
    case ReplyEvent(x, errMsg, data) =>
      if x in s.msgQueue {
        RunRetired(AnswerWith(s, s.msgQueue[x].call, Replied(errMsg, data)), s.msgQueue[x].callback, id);
      }
    case ExitEvent(reason) => EndWithRetired(s, reason, id);
  }

  lemma {:induction false} ExecRetired(s: State, evs: seq<Event>, id: nat)
    requires Retired(s, id)
    ensures Retired(Exec(s, evs), id)
    decreases |evs|
  {
    if evs != [] {
      ExecRetired(s, evs[..|evs| - 1], id);
      ApplyRetired(Exec(s, evs[..|evs| - 1]), evs[|evs| - 1], id);
    }
  }

  /** A second reply to a request, however late, has no effect; neither has any reply after the exit. */
  lemma {:induction false} LateReplyIgnored(s: State, id: nat, outcome: Outcome, evs: seq<Event>, late: Outcome)
    requires Inv(s) && id < s.msgID
    ensures var s' := Exec(Reply(s, id, outcome), evs); Reply(s', id, late) == s'
  {
    if id in s.msgQueue {
      var p := s.msgQueue[id];
      var s1 := AnswerWith(s, p.call, outcome);
      OnceMoved(s.msgQueue, s.answers, s.calls, id, Answer(p.call, outcome));
      RunLiveOnce(s1, RunLive(s1, p.callback), p.callback, {id});
    }
    ExecRetired(Reply(s, id, outcome), evs, id);
  }

  // ----- why callbacks must not end the worker -----

  /** Run while the worker lives, the script ends it. */
  predicate EndsWorker(k: Script) {
    match k
    case Done => false
    case Send(_, rest) => EndsWorker(rest)
    case Notify(rest) => EndsWorker(rest)
    case End(_, _) => true
  }

  lemma {:induction false} TimesAnswer(s: State, call: nat, outcome: Outcome, x: nat)
    ensures Times(AnswerWith(s, call, outcome).answers, x) == Times(s.answers, x) + if call == x then 1 else 0
  {
  }

  lemma {:induction false} RunEndedTimes(s: State, reason: Reason, k: Script, call: nat)
    requires call < s.calls
    ensures var s' := RunEnded(s, reason, k); Times(s'.answers, call) == Times(s.answers, call) && s.calls <= s'.calls
    decreases k
  {
    match k
    case Done =>
    case Send(callback, rest) =>
      var s0 := s.(calls := s.calls + 1);
      var s1 := AnswerWith(s0, s.calls, Ended(reason));
      TimesAnswer(s0, s.calls, Ended(reason), call);
      RunEndedTimes(s1, reason, callback, call);
      RunEndedTimes(RunEnded(s1, reason, callback), reason, rest, call);
    case Notify(rest) => RunEndedTimes(s, reason, rest, call);
    case End(_, rest) => RunEndedTimes(s, reason, rest, call);
  }

  lemma {:induction false} AnswerPendingTimes(s: State, reason: Reason, pending: map<nat, Pending>, n: nat, id: nat)
    requires id in pending && pending[id].call < s.calls
    requires forall x :: x in pending && pending[x].call == pending[id].call ==> x == id
    ensures var s' := AnswerPending(s, reason, pending, n);
      && Times(s'.answers, pending[id].call) == Times(s.answers, pending[id].call) + (if id < n then 1 else 0)
      && s.calls <= s'.calls
    decreases n
  {
    if n > 0 {
      AnswerPendingTimes(s, reason, pending, n - 1, id);
      if n - 1 in pending {
        var s1, p := AnswerPending(s, reason, pending, n - 1), pending[n - 1];
        TimesAnswer(s1, p.call, Ended(reason), pending[id].call);
        RunEndedTimes(AnswerWith(s1, p.call, Ended(reason)), reason, p.callback, pending[id].call);
      }
    }
  }

  /** Request `id` is the only one with its number. */
  ghost predicate Sole(s: State, id: nat) {
    && id in s.msgQueue && id < s.msgID && s.msgQueue[id].call < s.calls
    && (forall x :: x in s.msgQueue && s.msgQueue[x].call == s.msgQueue[id].call ==> x == id)
  }

  lemma {:induction false} RunLiveTimes(s: State, k: Script, id: nat)
    requires s.ended.None? && Sole(s, id)
    ensures var call := s.msgQueue[id].call;
      Times(RunLive(s, k).answers, call) == Times(s.answers, call) + if EndsWorker(k) then 1 else 0
    decreases k
  {
    match k
    case Done =>
    case Send(callback, rest) => RunLiveTimes(Enqueue(s, callback), rest, id);
    case Notify(rest) => RunLiveTimes(s.(posted := s.posted + 1), rest, id);
    case End(reason, rest) =>
      var s0 := s.(ended := Some(reason), msgQueue := map[]);
      AnswerPendingTimes(s0, reason, s.msgQueue, s.msgID, id);
      var s1 := EndWith(s, reason);
      if s1.ended.Some? { RunEndedTimes(s1, s1.ended.value, rest, s.msgQueue[id].call); }
  }

  /**
   A reply runs the request's callback before the request is forgotten, so a callback that
   ends the worker is run a second time by it: exactly then is the request answered twice.
   */
  lemma {:induction false} AnsweredTwiceIffCallbackEnds(s: State, id: nat, outcome: Outcome)
    requires s.ended.None? && Sole(s, id) && Times(s.answers, s.msgQueue[id].call) == 0
    ensures Times(Reply(s, id, outcome).answers, s.msgQueue[id].call) == if EndsWorker(s.msgQueue[id].callback) then 2 else 1
  {
    var p := s.msgQueue[id];
    TimesAnswer(s, p.call, outcome, p.call);
    RunLiveTimes(AnswerWith(s, p.call, outcome), p.callback, id);
  }

  // ----- what running code does -----

  /** The callbacks of the requests that code sends to a live worker, in order: those its callbacks send are not among them. */
  function Sends(k: Script): seq<Script> {
    match k
    case Done => []
    case Send(callback, rest) => [callback] + Sends(rest)
    case Notify(rest) => Sends(rest)
    case End(_, rest) => Sends(rest)
  }

  /** How many messages that is, with those that need no reply. */
  function Messages(k: Script): nat {
    match k
    case Done => 0
    case Send(_, rest) => 1 + Messages(rest)
    case Notify(rest) => 1 + Messages(rest)
    case End(_, rest) => Messages(rest)
  }

  /** How many requests code sends once the worker has ended, its callbacks' at any depth among them. */
  function AllSends(k: Script): nat {
    match k
    case Done => 0
    case Send(callback, rest) => 1 + AllSends(callback) + AllSends(rest)
    case Notify(rest) => AllSends(rest)
    case End(_, rest) => AllSends(rest)
  }

  /** The requests with the callbacks `ks` have joined the queue, under the next ids and numbers; everything else is as it was. */
  ghost predicate Joined(s: State, s': State, ks: seq<Script>, messages: nat) {
    && s' == s.(msgQueue := s'.msgQueue, msgID := s.msgID + |ks|, posted := s.posted + messages, calls := s.calls + |ks|)
    && (forall id :: id in s'.msgQueue <==> id in s.msgQueue || s.msgID <= id < s.msgID + |ks|)
    && (forall id :: s.msgID <= id < s.msgID + |ks| ==> s'.msgQueue[id] == Pending(s.calls + (id - s.msgID), ks[id - s.msgID]))
    && (forall id :: id in s.msgQueue && id < s.msgID ==> s'.msgQueue[id] == s.msgQueue[id])
  }

  lemma {:induction false} RunLiveSends(s: State, k: Script)
    requires NoEnd(k) && s.ended.None? && forall id :: id in s.msgQueue ==> id < s.msgID
    ensures Joined(s, RunLive(s, k), Sends(k), Messages(k))
    decreases k
  {
    match k
    case Done =>
    case Send(callback, rest) =>
      var s1 := Enqueue(s, callback);
      RunLiveSends(s1, rest);
      JoinedMore(s, s1, RunLive(s, k), callback, Sends(rest), Messages(rest));
    case Notify(rest) => RunLiveSends(s.(posted := s.posted + 1), rest);
  }

  lemma {:induction false} JoinedMore(s: State, s1: State, s': State, callback: Script, ks: seq<Script>, messages: nat)
    requires s1 == Enqueue(s, callback) && Joined(s1, s', ks, messages)
    ensures Joined(s, s', [callback] + ks, messages + 1)
  {
  }

  /**
   Code that runs while the worker lives, on its own or as the callback of a reply, sends it every one
   of its messages; its requests wait under new ids, in order, each with its own callback.  A reply
   is given to its own request's callback before that runs, and the request is forgotten after.
   */
  lemma {:induction false} LiveCodeSends(s: State, k: Script, id: nat, outcome: Outcome) returns (s1: State)
    requires Inv(s) && s.ended.None? && NoEnd(k)
    ensures Joined(s, Run(s, k), Sends(k), Messages(k))
    ensures id in s.msgQueue ==> var p := s.msgQueue[id];
      && Joined(s.(answers := s.answers + [Answer(p.call, outcome)]), s1, Sends(p.callback), Messages(p.callback))
      && Reply(s, id, outcome) == s1.(msgQueue := s1.msgQueue - {id})
  {
    s1 := s;
    RunLiveSends(s, k);
    if id in s.msgQueue {
      var p := s.msgQueue[id];
      s1 := Run(AnswerWith(s, p.call, outcome), p.callback);
      RunLiveSends(AnswerWith(s, p.call, outcome), p.callback);
    }
  }

  lemma {:induction false} RunEndedSends(s: State, reason: Reason, k: Script)
    ensures var s' := RunEnded(s, reason, k);
      && s' == s.(calls := s.calls + AllSends(k), answers := s'.answers) && |s'.answers| == |s.answers| + AllSends(k)
    decreases k
  {
    match k
    case Done =>
    case Send(callback, rest) =>
      var s1 := AnswerWith(s.(calls := s.calls + 1), s.calls, Ended(reason));
      RunEndedSends(s1, reason, callback);
      RunEndedSends(RunEnded(s1, reason, callback), reason, rest);
    case Notify(rest) => RunEndedSends(s, reason, rest);
    case End(_, rest) => RunEndedSends(s, reason, rest);
  }

  /** What the callbacks of the requests below `n` send in all, with those requests themselves. */
  function PendingSends(pending: map<nat, Pending>, n: nat): nat {
    if n == 0 then 0
    else PendingSends(pending, n - 1) + if n - 1 in pending then 1 + AllSends(pending[n - 1].callback) else 0
  }

  lemma {:induction false} AnswerPendingSends(s: State, reason: Reason, pending: map<nat, Pending>, n: nat)
    ensures var s' := AnswerPending(s, reason, pending, n);
      && s' == s.(calls := s'.calls, answers := s'.answers)
      && |s'.answers| == |s.answers| + PendingSends(pending, n)
    decreases n
  {
    if n > 0 {
      AnswerPendingSends(s, reason, pending, n - 1);
      if n - 1 in pending {
        var s1, p := AnswerPending(s, reason, pending, n - 1), pending[n - 1];
        RunEndedSends(AnswerWith(s1, p.call, Ended(reason)), reason, p.callback);
      }
    }
  }

  /**
   The exit runs the callback of every pending request to its end, and so does code that runs after it:
   nothing is sent to the worker any more, and every request is answered at once, at any depth.
   */
  lemma {:induction false} EndedCodeAnswered(s: State, reason: Reason, k: Script)
    ensures s.ended.Some? ==> var s' := Run(s, k);
      s'.posted == s.posted && s'.calls == s.calls + AllSends(k) && |s'.answers| == |s.answers| + AllSends(k)
    ensures s.ended.None? ==> var s' := EndWith(s, reason);
      && s'.posted == s.posted && s'.ended == Some(reason) && s'.msgQueue == map[]
      && |s'.answers| == |s.answers| + PendingSends(s.msgQueue, s.msgID)
    ensures s.ended.Some? ==> EndWith(s, reason) == s
  {
    if s.ended.Some? {
      RunEndedSends(s, s.ended.value, k);
    } else {
      AnswerPendingSends(s.(ended := Some(reason), msgQueue := map[]), reason, s.msgQueue, s.msgID);
    }
  }
}
