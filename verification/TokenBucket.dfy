/**
 The message rate of one worker (lib/worker-message.js:264-280): a token bucket refilled
 continuously, with times in milliseconds.  Doubles are taken as reals.
 */
module TokenBucket {
  /** `rate` is the capacity, and the tokens gained per second. */
  datatype Bucket = Bucket(rate: real, tokens: real, refillAt: real)

  function Gain(rate: real, ms: real): real { ms * rate / 1000.0 }

  function Refilled(b: Bucket, now: real): real {
    var tokens := b.tokens + Gain(b.rate, now - b.refillAt);
    if b.rate <= tokens then b.rate else tokens
  }

  /** One counted message arrives: whether it is admitted, and the bucket after it. */
  function Arrive(b: Bucket, now: real): (bool, Bucket) {
    var tokens := Refilled(b, now);
    if tokens < 1.0 then (false, b.(tokens := tokens, refillAt := now))
    else (true, b.(tokens := tokens - 1.0, refillAt := now))
  }

  function After(b: Bucket, times: seq<real>): Bucket {
    if times == [] then b else Arrive(After(b, times[..|times| - 1]), times[|times| - 1]).1
  }

  /** Whether the `i`-th message of the history is admitted. */
  predicate Admits(b: Bucket, times: seq<real>, i: nat)
    requires i < |times|
  {
    Arrive(After(b, times[..i]), times[i]).0
  }

  /** How many messages with a time in [t1, t2] are admitted. */
  function AdmittedIn(b: Bucket, times: seq<real>, t1: real, t2: real): nat {
    if times == [] then 0
    else
      var n := |times| - 1;
      AdmittedIn(b, times[..n], t1, t2) + if t1 <= times[n] <= t2 && Arrive(After(b, times[..n]), times[n]).0 then 1 else 0
  }

  ghost predicate Ordered(b: Bucket, times: seq<real>) {
    && (times != [] ==> b.refillAt <= times[0])
    && (forall i :: 0 < i < |times| ==> times[i - 1] <= times[i])
  }

  lemma OrderedPrefix(b: Bucket, times: seq<real>)
    requires Ordered(b, times) && times != []
    ensures Ordered(b, times[..|times| - 1])
  {
  }

  lemma GainMonotone(rate: real, a: real, b: real)
    requires rate >= 0.0 && a <= b
    ensures Gain(rate, a) <= Gain(rate, b)
  {
  }

  lemma GainAdds(rate: real, a: real, b: real)
    ensures Gain(rate, a + b) == Gain(rate, a) + Gain(rate, b)
  {
  }

  lemma {:induction false} AfterState(b: Bucket, times: seq<real>)
    requires b.rate >= 0.0 && b.tokens >= 0.0 && Ordered(b, times)
    ensures var a := After(b, times); a.rate == b.rate && a.tokens >= 0.0
    ensures After(b, times).refillAt == if times == [] then b.refillAt else times[|times| - 1]
    decreases |times|
  {
    if times != [] {
      var n := |times| - 1;
      OrderedPrefix(b, times);
      AfterState(b, times[..n]);
      var a := After(b, times[..n]);
      assert a.refillAt <= times[n];
      GainMonotone(b.rate, 0.0, times[n] - a.refillAt);
      assert Gain(b.rate, 0.0) == 0.0;
    }
  }

  /** What the window has cost so far, against what it has gained. */
  lemma {:induction false} Window(b: Bucket, times: seq<real>, t1: real, t2: real)
    requires b.rate >= 0.0 && b.tokens >= 0.0 && Ordered(b, times) && t1 <= t2
    ensures AdmittedIn(b, times, t1, t2) as real <= b.rate + Gain(b.rate, t2 - t1)
    ensures times != [] && times[|times| - 1] < t1 ==> AdmittedIn(b, times, t1, t2) == 0
    ensures times != [] && t1 <= times[|times| - 1] <= t2 ==>
      AdmittedIn(b, times, t1, t2) as real + After(b, times).tokens <= b.rate + Gain(b.rate, times[|times| - 1] - t1)
    decreases |times|
  {
    GainMonotone(b.rate, 0.0, t2 - t1);
    assert Gain(b.rate, 0.0) == 0.0;
    if times != [] {
      var n := |times| - 1;
      var now, a := times[n], After(b, times[..n]);
      OrderedPrefix(b, times);
      Window(b, times[..n], t1, t2);
      AfterState(b, times[..n]);
      AfterState(b, times);
      if t1 <= now <= t2 {
        WindowStep(b, times, t1, t2);
        GainMonotone(b.rate, now - t1, t2 - t1);
      }
    }
  }

  lemma {:induction false} WindowStep(b: Bucket, times: seq<real>, t1: real, t2: real)
    requires b.rate >= 0.0 && b.tokens >= 0.0 && times != [] && Ordered(b, times)
    requires var now := times[|times| - 1]; t1 <= now <= t2
    requires var before := times[..|times| - 1];
      && (before != [] && before[|before| - 1] < t1 ==> AdmittedIn(b, before, t1, t2) == 0)
      && (before != [] && t1 <= before[|before| - 1] <= t2 ==>
          AdmittedIn(b, before, t1, t2) as real + After(b, before).tokens <= b.rate + Gain(b.rate, before[|before| - 1] - t1))
    ensures AdmittedIn(b, times, t1, t2) as real + After(b, times).tokens <= b.rate + Gain(b.rate, times[|times| - 1] - t1)
  {
    var n := |times| - 1;
    var before, now := times[..n], times[n];
    var a := After(b, before);
    OrderedPrefix(b, times);
    AfterState(b, before);
    var tokens := Refilled(a, now);
    assert AdmittedIn(b, times, t1, t2) as real + After(b, times).tokens == AdmittedIn(b, before, t1, t2) as real + tokens;
    if before == [] || before[n - 1] < t1 {
      GainMonotone(b.rate, 0.0, now - t1);
      assert Gain(b.rate, 0.0) == 0.0;
    } else {
      GainAdds(b.rate, before[n - 1] - t1, now - before[n - 1]);
      assert before[n - 1] - t1 + (now - before[n - 1]) == now - t1;
    }
  }

  /** In any interval [t1, t2], at most `rate` messages and `rate` more per second of it are admitted. */
  lemma {:induction false} RateBound(b: Bucket, times: seq<real>, t1: real, t2: real)
    requires b.rate >= 0.0 && b.tokens >= 0.0 && Ordered(b, times) && t1 <= t2
    ensures AdmittedIn(b, times, t1, t2) as real <= b.rate + b.rate * (t2 - t1) / 1000.0
  {
    Window(b, times, t1, t2);
  }

  /** Counting up to a later time counts no fewer. */
  lemma {:induction false} AdmittedGrows(b: Bucket, times: seq<real>, t1: real, t2: real, t3: real)
    requires t2 <= t3
    ensures AdmittedIn(b, times, t1, t2) <= AdmittedIn(b, times, t1, t3)
    decreases |times|
  {
    if times != [] { AdmittedGrows(b, times[..|times| - 1], t1, t2, t3); }
  }

  /** What has been admitted since `t1` and what is left in the bucket at `now` make up a full bucket and the gain since. */
  ghost predicate FullAt(b: Bucket, times: seq<real>, t1: real, now: real) {
    b.refillAt <= t1 <= now && AdmittedIn(b, times, t1, now) as real + After(b, times).tokens >= b.rate + Gain(b.rate, now - t1)
  }

  lemma {:induction false} LastFull(b: Bucket, times: seq<real>) returns (t1: real)
    requires b.rate >= 0.0 && b.tokens == b.rate && Ordered(b, times)
    ensures FullAt(b, times, t1, After(b, times).refillAt)
    decreases |times|
  {
    if times == [] {
      t1 := b.refillAt;
      assert Gain(b.rate, 0.0) == 0.0;
    } else {
      var n := |times| - 1;
      var now, a := times[n], After(b, times[..n]);
      OrderedPrefix(b, times);
      AfterState(b, times[..n]);
      t1 := LastFull(b, times[..n]);
      if a.tokens + Gain(b.rate, now - a.refillAt) < b.rate {
        AdmittedGrows(b, times[..n], t1, a.refillAt, now);
        GainAdds(b.rate, a.refillAt - t1, now - a.refillAt);
        assert a.refillAt - t1 + (now - a.refillAt) == now - t1;
      } else {
        t1 := now;
        assert Gain(b.rate, 0.0) == 0.0;
      }
    }
  }

  /** In the interval from `t1` to `now` there is room for one more message. */
  predicate Room(b: Bucket, times: seq<real>, t1: real, now: real) {
    AdmittedIn(b, times, t1, now) as real + 1.0 <= b.rate + b.rate * (now - t1) / 1000.0
  }

  /**
   A bucket that starts full admits a message exactly if no interval that ends with it would then hold
   more than the bound allows: it refuses no more than it has to.
   */
  lemma {:induction false} AdmittedIff(b: Bucket, times: seq<real>, i: nat)
    requires b.rate >= 0.0 && b.tokens == b.rate && Ordered(b, times) && i < |times|
    ensures Admits(b, times, i) <==> forall t1 :: b.refillAt <= t1 <= times[i] ==> Room(b, times[..i], t1, times[i])
  {
    OrderedUpTo(b, times, i);
    AfterState(b, times[..i]);
    if Admits(b, times, i) {
      forall t1 | b.refillAt <= t1 <= times[i] ensures Room(b, times[..i], t1, times[i]) { AdmittedHasRoom(b, times, i, t1); }
    } else {
      var t1 := RefusedAt(b, times[..i], times[i]);
      assert !Room(b, times[..i], t1, times[i]);
    }
  }

  lemma {:induction false} AdmittedHasRoom(b: Bucket, times: seq<real>, i: nat, t1: real)
    requires b.rate >= 0.0 && b.tokens >= 0.0 && Ordered(b, times) && i < |times| && t1 <= times[i] && Admits(b, times, i)
    ensures Room(b, times[..i], t1, times[i])
  {
    OrderedUpTo(b, times, i + 1);
    var upTo := times[..i + 1];
    assert upTo[..i] == times[..i] && upTo[i] == times[i];
    Window(b, upTo, t1, times[i]);
    assert AdmittedIn(b, upTo, t1, times[i]) == AdmittedIn(b, times[..i], t1, times[i]) + 1;
    RoomIs(b, times[..i], t1, times[i]);
  }

  lemma {:induction false} RefusedAt(b: Bucket, times: seq<real>, now: real) returns (t1: real)
    requires b.rate >= 0.0 && b.tokens == b.rate && Ordered(b, times) && After(b, times).refillAt <= now
    requires Refilled(After(b, times), now) < 1.0
    ensures b.refillAt <= t1 <= now && !Room(b, times, t1, now)
  {
    var a := After(b, times);
    AfterState(b, times);
    t1 := LastFull(b, times);
    if a.tokens + Gain(b.rate, now - a.refillAt) < b.rate {
      AdmittedGrows(b, times, t1, a.refillAt, now);
      SpentBy(b, a, AdmittedIn(b, times, t1, now) as real, t1, now);
      RoomIs(b, times, t1, now);
    } else {
      t1 := now;
      RoomIs(b, times, t1, now);
      assert Gain(b.rate, 0.0) == 0.0;
    }
  }

  /** If little is left, what was spent since `t1` is all but a message of the bound. */
  lemma SpentBy(b: Bucket, a: Bucket, spent: real, t1: real, now: real)
    requires spent + a.tokens >= b.rate + Gain(b.rate, a.refillAt - t1) && a.tokens + Gain(b.rate, now - a.refillAt) < 1.0
    ensures spent + 1.0 > b.rate + Gain(b.rate, now - t1)
  {
    GainAdds(b.rate, a.refillAt - t1, now - a.refillAt);
    assert a.refillAt - t1 + (now - a.refillAt) == now - t1;
  }

  lemma RoomIs(b: Bucket, times: seq<real>, t1: real, now: real)
    ensures Room(b, times, t1, now) <==> AdmittedIn(b, times, t1, now) as real + 1.0 <= b.rate + Gain(b.rate, now - t1)
  {
  }

  lemma OrderedUpTo(b: Bucket, times: seq<real>, i: nat)
    requires Ordered(b, times) && i <= |times|
    ensures Ordered(b, times[..i]) && (i < |times| ==> (if i == 0 then b.refillAt else times[i - 1]) <= times[i])
  {
  }

  /** At least 1000/rate ms lie between `t` and `u`. */
  predicate Apart(rate: real, t: real, u: real) { rate * (u - t) >= 1000.0 }

  ghost predicate Spaced(rate: real, times: seq<real>, from: nat) {
    forall i :: from < i < |times| ==> Apart(rate, times[i - 1], times[i])
  }

  /** A sender that leaves 1000/rate ms between messages is never refused once it has been admitted. */
  lemma {:induction false} SpacedNeverRefused(b: Bucket, times: seq<real>, from: nat, i: nat)
    requires from <= i < |times| && Admits(b, times, from) && Spaced(b.rate, times, from)
    ensures Admits(b, times, i)
    decreases i
  {
    if i > from {
      SpacedNeverRefused(b, times, from, i - 1);
      assert times[..i][..i - 1] == times[..i - 1];
      var a := After(b, times[..i - 1]);
      AfterRate(b, times[..i - 1]);
      assert Apart(a.rate, times[i - 1], times[i]);
      AdmittedAgain(a, times[i - 1], times[i]);
    }
  }

  lemma {:induction false} AfterRate(b: Bucket, times: seq<real>)
    ensures After(b, times).rate == b.rate
    decreases |times|
  {
    if times != [] { AfterRate(b, times[..|times| - 1]); }
  }

  lemma AdmittedAgain(b: Bucket, t: real, u: real)
    requires Arrive(b, t).0 && Apart(b.rate, t, u)
    ensures Arrive(Arrive(b, t).1, u).0
  {
  }

  /** A full bucket admits a burst of up to `rate` messages, so the bound is reached. */
  lemma {:induction false} BurstAdmitted(b: Bucket, times: seq<real>, i: nat)
    requires b.rate >= 0.0 && b.tokens == b.rate && Ordered(b, times) && i < |times| && i as real + 1.0 <= b.rate
    ensures Admits(b, times, i) && After(b, times[..i]).tokens >= b.rate - i as real
    decreases i
  {
    AfterState(b, times[..i]);
    if i > 0 {
      BurstAdmitted(b, times, i - 1);
      assert times[..i][..i - 1] == times[..i - 1];
      AfterState(b, times[..i - 1]);
      var a := After(b, times[..i - 1]);
      GainMonotone(b.rate, 0.0, times[i - 1] - a.refillAt);
    }
    GainMonotone(b.rate, 0.0, times[i] - After(b, times[..i]).refillAt);
    assert Gain(b.rate, 0.0) == 0.0;
  }
}
