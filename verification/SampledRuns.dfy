/**
 * Whole histories of a sampled item: polls, publishing cycles and deliveries in any order
 * (opcua/server/datachange_monitored_item.go). Values wait in the pre-queue for the sampling instant that their
 * server timestamp belongs to; a value that is polled after that instant comes too late for it.
 */
module SampledRuns {
  import opened MonitoredItems

  /** What happens to an item: a value is polled, a cycle updates the queue, or a message takes notifications. */
  datatype Event = Poll(v: DataValue) | Publish(tn: int) | Take(n: nat)

  ghost function Run(c: Sampling, m: ItemState, es: seq<Event>): (r: ItemState)
    requires c.size >= 1
  {
    if es == [] then m
    else
      var before := Run(c, m, es[..|es| - 1]);
      match es[|es| - 1]
      case Poll(v) => before.(prequeue := before.prequeue + [v])
      case Publish(tn) => Refreshed(c, before, tn)
      case Take(n) => if n <= |before.queue| then before.(queue := before.queue[n..]) else before
  }

  /** The time of the latest publishing cycle, or `t0` if it is later. */
  function LatestCycle(es: seq<Event>, t0: int): (t: int)
    ensures t >= t0
  {
    if es == [] then t0
    else
      var before := LatestCycle(es[..|es| - 1], t0);
      match es[|es| - 1]
      case Publish(tn) => if tn > before then tn else before
      case _ => before
  }

  function Polled(es: seq<Event>): (r: seq<DataValue>)
  {
    if es == [] then []
    else if es[|es| - 1].Poll? then Polled(es[..|es| - 1]) + [es[|es| - 1].v] else Polled(es[..|es| - 1])
  }

  /** The values that were waiting at the start, and those polled since. */
  function Whole(m: ItemState, es: seq<Event>): (r: seq<DataValue>)
  {
    m.prequeue + Polled(es)
  }

  function LastOf(s: seq<DataValue>, otherwise: DataValue): (v: DataValue)
  {
    if s == [] then otherwise else s[|s| - 1]
  }

  /** The latest cycle of a history that starts with item `m`; no instant has been sampled before its first. */
  function Latest(m: ItemState, es: seq<Event>): (t: int)
  {
    LatestCycle(es, m.ts - 1)
  }

  /** What the item accepts over a history. */
  ghost function Accepted(c: Sampling, m: ItemState, es: seq<Event>): (vs: seq<DataValue>)
    requires c.size >= 1
  {
    if es == [] then []
    else
      var front := es[..|es| - 1];
      Accepted(c, m, front) + match es[|es| - 1]
                              case Publish(tn) => AcceptedIn(c, Run(c, m, front), tn)
                              case _ => []
  }

  lemma AfterEvent(c: Sampling, m: ItemState, es: seq<Event>, e: Event)
    requires c.size >= 1
    ensures Run(c, m, []) == m && Accepted(c, m, []) == []
    ensures e.Poll? ==> Run(c, m, es + [e]) == Run(c, m, es).(prequeue := Run(c, m, es).prequeue + [e.v])
    ensures e.Publish? ==> Run(c, m, es + [e]) == Refreshed(c, Run(c, m, es), e.tn)
    ensures Accepted(c, m, es + [e])
            == Accepted(c, m, es) + if e.Publish? then AcceptedIn(c, Run(c, m, es), e.tn) else []
  {
    hide Refreshed, AcceptedIn;
    assert (es + [e])[..|es|] == es;
  }

  /**
   * The item is sampled, and has accepted the same values, as if all values had been there from the start and
   * only the latest cycle had happened.
   */
  ghost predicate AsOneAdvance(c: Sampling, m: ItemState, es: seq<Event>)
    requires Valid(c)
  {
    var all := m.(prequeue := Whole(m, es));
    var r, one := Run(c, m, es), AdvanceTo(c, all, Latest(m, es));
    r.ts == one.ts && r.previous == one.previous && Accepted(c, m, es) == AcceptedIn(c, all, Latest(m, es))
  }

  // ------------------------------------------------------------------ which polls come in time

  /**
   * A value polled when `next` is the next instant comes in time: nothing has been sampled yet, or it is stamped
   * after the last instant, or it waits behind a value that is, or it repeats the value before it.
   */
  ghost predicate InTime(c: Sampling, m: ItemState, whole: seq<DataValue>, next: int, v: DataValue)
  {
    || next <= m.ts
    || v.serverTime > next - c.interval
    || Due(whole, next - c.interval) < |whole|
    || v == LastOf(whole, m.previous)
  }

  ghost predicate Undelayed(c: Sampling, m: ItemState, es: seq<Event>)
    requires Valid(c)
  {
    es != [] ==>
      var front := es[..|es| - 1];
      && Undelayed(c, m, front)
      && (es[|es| - 1].Poll? ==>
            InTime(c, m, Whole(m, front), NextInstant(c, m.ts, Latest(m, front)), es[|es| - 1].v))
  }

  lemma {:induction false} DueSnoc(q: seq<DataValue>, v: DataValue, t: int)
    ensures Due(q + [v], t) == if Due(q, t) < |q| then Due(q, t) else if v.serverTime <= t then |q| + 1 else |q|
  {
    if q == [] {
      assert (q + [v])[1..] == [];
    } else {
      assert (q + [v])[1..] == q[1..] + [v];
      DueSnoc(q[1..], v, t);
    }
  }

  /** A value in time does not change what is sampled at any instant up to the last. */
  lemma SampleInTime(c: Sampling, m: ItemState, whole: seq<DataValue>, next: int, v: DataValue, t: int)
    requires InTime(c, m, whole, next, v) && next > m.ts && t <= next - c.interval
    ensures SampleAt(whole + [v], m.previous, t) == SampleAt(whole, m.previous, t)
  {
    hide Due, SampleAt;
    DueSnoc(whole, v, t);
    DueRest(whole, t, next - c.interval);
    SampleUnfold(whole, m.previous, t);
    SampleUnfold(whole + [v], m.previous, t);
  }

  lemma {:induction false} SamplesInTime(c: Sampling, m: ItemState, whole: seq<DataValue>, next: int, v: DataValue,
                                         ts: int, tn: int)
    requires Valid(c) && InTime(c, m, whole, next, v) && next > m.ts && NextInstant(c, ts, tn) <= next
    ensures Samples(c, whole + [v], m.previous, ts, tn) == Samples(c, whole, m.previous, ts, tn)
    decreases tn - ts
  {
    hide SampleAt, InTime;
    if ts <= tn {
      NextInstantPast(c, ts, tn);
      SampleInTime(c, m, whole, next, v, ts);
      SamplesInTime(c, m, whole, next, v, ts + c.interval, tn);
    }
  }

  // ------------------------------------------------------------------ splitting a history

  lemma {:induction false} SamplesSplit(c: Sampling, q: seq<DataValue>, held: DataValue, ts: int, t: int, tn: int)
    requires Valid(c) && t <= tn
    ensures Samples(c, q, held, ts, tn) == Samples(c, q, held, ts, t) + Samples(c, q, held, NextInstant(c, ts, t), tn)
    ensures NextInstant(c, NextInstant(c, ts, t), tn) == NextInstant(c, ts, tn)
    decreases t - ts
  {
    hide SampleAt;
    if ts <= t {
      SamplesSplit(c, q, held, ts + c.interval, t, tn);
    }
  }

  lemma {:induction false} KeptSplit(changed: Changed, previous: DataValue, a: seq<DataValue>, b: seq<DataValue>)
    ensures var k := Kept(changed, previous, a);
            Kept(changed, previous, a + b) == k + Kept(changed, LastOf(k, previous), b)
    decreases |a|
  {
    if a == [] {
      assert a + b == b;
    } else {
      assert (a + b)[1..] == a[1..] + b;
      KeptSplit(changed, if changed(a[0], previous) then a[0] else previous, a[1..], b);
    }
  }

  /** The last sample is the last kept one, or it was found not to differ from it. */
  lemma {:induction false} KeptSettles(changed: Changed, previous: DataValue, samples: seq<DataValue>)
    requires samples != []
    ensures var k, last := LastOf(Kept(changed, previous, samples), previous), samples[|samples| - 1];
            last == k || !changed(last, k)
    decreases |samples|
  {
    if |samples| > 1 {
      var previous' := if changed(samples[0], previous) then samples[0] else previous;
      KeptSettles(changed, previous', samples[1..]);
    } else {
      assert Kept(changed, samples[0], []) == [];
      assert samples[1..] == [];
    }
  }

  lemma {:induction false} LastSample(c: Sampling, q: seq<DataValue>, held: DataValue, ts: int, tn: int)
    requires Valid(c) && ts <= tn
    ensures var s := Samples(c, q, held, ts, tn);
            s != [] && s[|s| - 1] == SampleAt(q, held, NextInstant(c, ts, tn) - c.interval)
    decreases tn - ts
  {
    hide SampleAt;
    if ts + c.interval <= tn {
      LastSample(c, q, held, ts + c.interval, tn);
    } else {
      assert Samples(c, q, held, ts + c.interval, tn) == [];
      assert NextInstant(c, ts, tn) == ts + c.interval;
    }
  }

  /** For a steady test it makes no difference whether a cycle holds the last sample or the last kept value. */
  lemma {:induction false} KeptRestart(c: Sampling, previous: DataValue, q: seq<DataValue>, w: DataValue, ts: int,
                                       tn: int)
    requires Valid(c) && Steady(c.changed) && (w == previous || !c.changed(w, previous))
    ensures Kept(c.changed, previous, Samples(c, q, w, ts, tn))
            == Kept(c.changed, previous, Samples(c, q, previous, ts, tn))
    decreases tn - ts
  {
    if ts <= tn && w != previous {
      var a, b := Samples(c, q, w, ts + c.interval, tn), Samples(c, q, previous, ts + c.interval, tn);
      KeptRestart(c, previous, q, w, ts + c.interval, tn);
      var x, y := SampleAt(q, w, ts), SampleAt(q, previous, ts);
      assert ([x] + a)[1..] == a && ([y] + b)[1..] == b;
      if Due(q, ts) > 0 {
        SamplesDue(c, q, w, previous, ts, ts + c.interval, tn);
      } else {
        assert x == w && y == previous && !c.changed(previous, previous);
      }
    }
  }

  /** Once a value is due, what was held before is forgotten. */
  lemma {:induction false} SamplesDue(c: Sampling, q: seq<DataValue>, w: DataValue, w': DataValue, t: int, ts: int,
                                      tn: int)
    requires Valid(c) && t <= ts && Due(q, t) > 0
    ensures Samples(c, q, w, ts, tn) == Samples(c, q, w', ts, tn)
    decreases tn - ts
  {
    hide Due;
    if ts <= tn {
      DueRest(q, t, ts);
      SamplesDue(c, q, w, w', t, ts + c.interval, tn);
    }
  }

  // ------------------------------------------------------------------ what waits in the pre-queue

  function Copies(w: DataValue, k: nat): (r: seq<DataValue>)
    ensures |r| == k
  {
    seq(k, i => w)
  }

  lemma {:induction false} DueCopies(w: DataValue, k: nat, q: seq<DataValue>, t: int)
    requires w.serverTime <= t
    ensures Due(Copies(w, k) + q, t) == k + Due(q, t)
  {
    if k == 0 {
      assert Copies(w, k) + q == q;
    } else {
      assert (Copies(w, k) + q)[1..] == Copies(w, k - 1) + q;
      DueCopies(w, k - 1, q, t);
    }
  }

  /** Copies of the held value in front of the pre-queue only repeat it. */
  lemma {:induction false} SamplesBehindCopies(c: Sampling, w: DataValue, k: nat, q: seq<DataValue>, held: DataValue,
                                               ts: int, tn: int)
    requires Valid(c) && k > 0 && w.serverTime <= ts
    ensures Samples(c, Copies(w, k) + q, held, ts, tn) == Samples(c, q, w, ts, tn)
    decreases tn - ts
  {
    hide Due, SampleAt;
    if ts <= tn {
      var all := Copies(w, k) + q;
      DueCopies(w, k, q, ts);
      SampleUnfold(all, held, ts);
      SampleUnfold(q, w, ts);
      var n := Due(q, ts);
      assert all[k + n - 1] == if n == 0 then w else q[n - 1];
      SamplesBehindCopies(c, w, k, q, held, ts + c.interval, tn);
    }
  }

  /** What one advance to `t` would leave in the pre-queue waits, perhaps behind copies of the last sample. */
  ghost predicate Waits(c: Sampling, m: ItemState, whole: seq<DataValue>, t: int, q: seq<DataValue>)
    requires Valid(c)
  {
    var last := NextInstant(c, m.ts, t) - c.interval;
    var w := SampleAt(whole, m.previous, last);
    exists k: nat :: q == Copies(w, k) + Left(c, whole, m.ts, t) && (k > 0 ==> m.ts <= t && w.serverTime <= last)
  }

  ghost function KeptOf(c: Sampling, m: ItemState, whole: seq<DataValue>, t: int): (r: seq<DataValue>)
    requires Valid(c)
  {
    Kept(c.changed, m.previous, Samples(c, whole, m.previous, m.ts, t))
  }

  /** The state of a run of which nothing came too late. */
  ghost predicate Keeps(c: Sampling, m: ItemState, whole: seq<DataValue>, t: int, r: ItemState,
                        accepted: seq<DataValue>)
    requires Valid(c)
  {
    && r.ts == NextInstant(c, m.ts, t)
    && r.previous == LastOf(KeptOf(c, m, whole, t), m.previous)
    && accepted == Stamped(c, KeptOf(c, m, whole, t))
    && Waits(c, m, whole, t, r.prequeue)
  }

  lemma StartKeeps(c: Sampling, m: ItemState)
    requires Valid(c)
    ensures Keeps(c, m, m.prequeue, m.ts - 1, m, [])
  {
    hide SampleAt, Due;
    var w := SampleAt(m.prequeue, m.previous, m.ts - c.interval);
    assert Copies(w, 0) + Left(c, m.prequeue, m.ts, m.ts - 1) == m.prequeue;
    assert Stamped(c, []) == [];
  }

  lemma PollKeeps(c: Sampling, m: ItemState, whole: seq<DataValue>, t: int, r: ItemState, accepted: seq<DataValue>,
                  v: DataValue)
    requires Valid(c) && Keeps(c, m, whole, t, r, accepted) && InTime(c, m, whole, NextInstant(c, m.ts, t), v)
    ensures Keeps(c, m, whole + [v], t, r.(prequeue := r.prequeue + [v]), accepted)
  {
    hide SampleAt, Due, Samples, Kept, Stamped, Waits, NextInstant, InTime;
    var next := NextInstant(c, m.ts, t);
    NextInstantPast(c, m.ts, t);
    if m.ts <= t {
      SamplesInTime(c, m, whole, next, v, m.ts, t);
    } else {
      NoSamples(c, whole, m.previous, m.ts, t);
      NoSamples(c, whole + [v], m.previous, m.ts, t);
    }
    PollWaits(c, m, whole, t, r.prequeue, v);
  }

  lemma NoSamples(c: Sampling, q: seq<DataValue>, held: DataValue, ts: int, tn: int)
    requires Valid(c) && ts > tn
    ensures Samples(c, q, held, ts, tn) == [] && NextInstant(c, ts, tn) == ts
  {
  }

  lemma PollWaits(c: Sampling, m: ItemState, whole: seq<DataValue>, t: int, q: seq<DataValue>, v: DataValue)
    requires Valid(c) && Waits(c, m, whole, t, q) && InTime(c, m, whole, NextInstant(c, m.ts, t), v)
    ensures Waits(c, m, whole + [v], t, q + [v])
  {
    hide SampleAt, Due, NextInstant, Left;
    var next := NextInstant(c, m.ts, t);
    var last := next - c.interval;
    var w := SampleAt(whole, m.previous, last);
    var k: nat :| q == Copies(w, k) + Left(c, whole, m.ts, t) && (k > 0 ==> m.ts <= t && w.serverTime <= last);
    LeftUnfold(c, whole, m.ts, t);
    LeftUnfold(c, whole + [v], m.ts, t);
    if m.ts > t {
      assert k == 0;
      var w' := SampleAt(whole + [v], m.previous, last);
      assert q + [v] == Copies(w', 0) + (whole + [v]);
    } else {
      NextInstantPast(c, m.ts, t);
      SampleInTime(c, m, whole, next, v, last);
      var k' := OneMoreWaits(c, m, whole, next, v, k);
      assert q + [v] == Copies(w, k') + (whole + [v])[Due(whole + [v], last)..];
    }
  }

  lemma OneMoreWaits(c: Sampling, m: ItemState, whole: seq<DataValue>, next: int, v: DataValue, k: nat)
    returns (k': nat)
    requires next > m.ts && InTime(c, m, whole, next, v)
    requires var w := SampleAt(whole, m.previous, next - c.interval); k > 0 ==> w.serverTime <= next - c.interval
    ensures var last := next - c.interval;
            var w := SampleAt(whole, m.previous, last);
            && Copies(w, k) + whole[Due(whole, last)..] + [v] == Copies(w, k') + (whole + [v])[Due(whole + [v], last)..]
            && (k' > 0 ==> w.serverTime <= last)
  {
    hide SampleAt, Due;
    var last := next - c.interval;
    var w, n := SampleAt(whole, m.previous, last), Due(whole, last);
    DueSnoc(whole, v, last);
    SampleUnfold(whole, m.previous, last);
    if n == |whole| && v.serverTime <= last {
      k' := k + 1;
      assert v == w && whole[n..] == [] && (whole + [v])[n + 1..] == [];
      assert Copies(w, k) + [] + [w] == Copies(w, k + 1) + [];
    } else {
      k' := k;
      AppendBehind(Copies(w, k), whole, n, v);
    }
  }

  lemma AppendBehind(front: seq<DataValue>, whole: seq<DataValue>, n: nat, v: DataValue)
    requires n <= |whole|
    ensures front + whole[n..] + [v] == front + (whole + [v])[n..]
  {
    assert (whole + [v])[n..] == whole[n..] + [v];
  }

  /** A later cycle continues where one advance would have stood. */
  lemma CycleKeeps(c: Sampling, m: ItemState, whole: seq<DataValue>, t: int, r: ItemState, accepted: seq<DataValue>,
                   tn: int)
    requires Valid(c) && Steady(c.changed) && Keeps(c, m, whole, t, r, accepted) && t <= tn
    ensures Keeps(c, m, whole, tn, AdvanceTo(c, r, tn), accepted + AcceptedIn(c, r, tn))
  {
    hide SampleAt, Due, Samples, Kept, Stamped, Waits, NextInstant, Left, Steady, EnqueueAll;
    var next := NextInstant(c, m.ts, t);
    var a, b := Samples(c, whole, m.previous, m.ts, t), Samples(c, whole, m.previous, next, tn);
    SamplesSplit(c, whole, m.previous, m.ts, t, tn);
    KeptSplit(c.changed, m.previous, a, b);
    SameKept(c, m, whole, t, r, tn);
    AdvanceIsSpecified(c, r, r.previous, tn);
    var k, k' := KeptOf(c, m, whole, t), Kept(c.changed, r.previous, b);
    StampedConcat(c, k, k');
    assert LastOf(k + k', m.previous) == LastOf(k', LastOf(k, m.previous));
    CycleWaits(c, m, whole, t, r.prequeue, tn);
  }

  lemma StampedConcat(c: Sampling, a: seq<DataValue>, b: seq<DataValue>)
    ensures Stamped(c, a + b) == Stamped(c, a) + Stamped(c, b)
  {
  }

  /** The cycle keeps the same values from the run's pre-queue as one advance over everything would. */
  lemma SameKept(c: Sampling, m: ItemState, whole: seq<DataValue>, t: int, r: ItemState, tn: int)
    requires Valid(c) && Steady(c.changed) && t <= tn
    requires r.ts == NextInstant(c, m.ts, t) && r.previous == LastOf(KeptOf(c, m, whole, t), m.previous)
    requires Waits(c, m, whole, t, r.prequeue)
    ensures Kept(c.changed, r.previous, Samples(c, r.prequeue, r.previous, r.ts, tn))
            == Kept(c.changed, r.previous, Samples(c, whole, m.previous, r.ts, tn))
  {
    hide SampleAt, Due, Samples, Kept, NextInstant, Left, Steady;
    var last := r.ts - c.interval;
    var w := SampleAt(whole, m.previous, last);
    var left := Left(c, whole, m.ts, t);
    var k: nat :| r.prequeue == Copies(w, k) + left && (k > 0 ==> m.ts <= t && w.serverTime <= last);
    LeftUnfold(c, whole, m.ts, t);
    if m.ts > t {
      NoSamples(c, whole, m.previous, m.ts, t);
      NothingKept(c.changed, m.previous);
      assert Copies(w, k) + left == left;
    } else {
      SamplesLater(c, whole, m.previous, last, r.ts, tn);
      LastSample(c, whole, m.previous, m.ts, t);
      KeptSettles(c.changed, m.previous, Samples(c, whole, m.previous, m.ts, t));
      KeptRestart(c, r.previous, left, w, r.ts, tn);
      if k > 0 {
        SamplesBehindCopies(c, w, k, left, r.previous, r.ts, tn);
      } else {
        assert Copies(w, k) + left == left;
      }
    }
  }

  lemma NothingKept(changed: Changed, previous: DataValue)
    ensures Kept(changed, previous, []) == []
  {
  }

  lemma CycleWaits(c: Sampling, m: ItemState, whole: seq<DataValue>, t: int, q: seq<DataValue>, tn: int)
    requires Valid(c) && Waits(c, m, whole, t, q) && t <= tn
    ensures Waits(c, m, whole, tn, Left(c, q, NextInstant(c, m.ts, t), tn))
  {
    hide SampleAt, Due, NextInstant, Left, Samples;
    var next := NextInstant(c, m.ts, t);
    var last := next - c.interval;
    var w := SampleAt(whole, m.previous, last);
    var k: nat :| q == Copies(w, k) + Left(c, whole, m.ts, t) && (k > 0 ==> m.ts <= t && w.serverTime <= last);
    SamplesSplit(c, whole, m.previous, m.ts, t, tn);
    NextInstantPast(c, m.ts, t);
    LeftUnfold(c, whole, m.ts, t);
    LeftUnfold(c, whole, m.ts, tn);
    LeftUnfold(c, q, next, tn);
    if next > tn {
      NoSamples(c, q, w, next, tn);
      if m.ts > t {
        NoSamples(c, q, w, m.ts, t);
      }
      assert Left(c, whole, m.ts, tn) == Left(c, whole, m.ts, t);
    } else {
      NextInstantPast(c, next, tn);
      LeftAfter(c, m, whole, t, k, w, q, next, NextInstant(c, next, tn) - c.interval);
      var w' := SampleAt(whole, m.previous, NextInstant(c, m.ts, tn) - c.interval);
      assert Copies(w', 0) + Left(c, whole, m.ts, tn) == Left(c, whole, m.ts, tn);
    }
  }

  /** At instant `u`, after the instants up to `t`, the same values are still waiting. */
  lemma LeftAfter(c: Sampling, m: ItemState, whole: seq<DataValue>, t: int, k: nat, w: DataValue, q: seq<DataValue>,
                  next: int, u: int)
    requires Valid(c) && next == NextInstant(c, m.ts, t) <= u
    requires q == Copies(w, k) + Left(c, whole, m.ts, t) && (k > 0 ==> m.ts <= t && w.serverTime <= next - c.interval)
    ensures q[Due(q, u)..] == whole[Due(whole, u)..]
  {
    hide Due, NextInstant, Left, Samples;
    LeftUnfold(c, whole, m.ts, t);
    var left := Left(c, whole, m.ts, t);
    if k > 0 {
      DueCopies(w, k, left, u);
    } else {
      assert Copies(w, k) + left == left;
    }
    assert q[Due(q, u)..] == left[Due(left, u)..];
    if m.ts <= t {
      DueRest(whole, next - c.interval, u);
      DropDrop(whole, Due(whole, next - c.interval), Due(whole, u));
    }
  }

  // ------------------------------------------------------------------ every history

  lemma EarlyCycle(c: Sampling, m: ItemState, tn: int)
    requires Valid(c) && m.ts > tn
    ensures AdvanceTo(c, m, tn) == m && AcceptedIn(c, m, tn) == []
  {
    NoSamples(c, m.prequeue, m.previous, m.ts, tn);
    assert Stamped(c, []) == [];
  }

  lemma {:induction false} RunKeeps(c: Sampling, m: ItemState, es: seq<Event>)
    requires Valid(c) && Steady(c.changed) && Undelayed(c, m, es)
    ensures Keeps(c, m, Whole(m, es), Latest(m, es), Run(c, m, es), Accepted(c, m, es))
    decreases |es|
  {
    hide Keeps, Advance, AcceptedIn, InTime, NextInstant, Steady;
    if es == [] {
      StartKeeps(c, m);
      assert Whole(m, es) == m.prequeue;
    } else {
      var front, e := es[..|es| - 1], es[|es| - 1];
      RunKeeps(c, m, front);
      var whole, t, r, accepted := Whole(m, front), Latest(m, front), Run(c, m, front), Accepted(c, m, front);
      match e
      case Poll(v) =>
        PollKeeps(c, m, whole, t, r, accepted, v);
        assert Whole(m, es) == whole + [v];
        assert accepted + [] == accepted;
      case Publish(tn) =>
        if tn > t {
          CycleKeeps(c, m, whole, t, r, accepted, tn);
        } else {
          RunsAhead(c, m, whole, t, r, accepted);
          EarlyCycle(c, r, tn);
          assert accepted + [] == accepted;
        }
      case Take(n) =>
        QueueAside(c, m, whole, t, r, accepted, Run(c, m, es));
        assert accepted + [] == accepted;
    }
  }

  lemma RunsAhead(c: Sampling, m: ItemState, whole: seq<DataValue>, t: int, r: ItemState, accepted: seq<DataValue>)
    requires Valid(c) && Keeps(c, m, whole, t, r, accepted)
    ensures r.ts > t
  {
    hide Waits, KeptOf;
    NextInstantPast(c, m.ts, t);
  }

  lemma QueueAside(c: Sampling, m: ItemState, whole: seq<DataValue>, t: int, r: ItemState, accepted: seq<DataValue>,
                   r': ItemState)
    requires Valid(c) && Keeps(c, m, whole, t, r, accepted) && r' == r.(queue := r'.queue)
    ensures Keeps(c, m, whole, t, r', accepted)
  {
    hide Waits, KeptOf;
  }

  /** Whatever polls, cycles and deliveries an item goes through, if no value comes too late it is as one advance. */
  lemma RunIsOneAdvance(c: Sampling, m: ItemState, es: seq<Event>)
    requires Valid(c) && Steady(c.changed) && Undelayed(c, m, es)
    ensures AsOneAdvance(c, m, es)
  {
    hide Run, Accepted, Undelayed, Steady, Waits, Advance, Samples, Kept, EnqueueAll, Stamped;
    RunKeeps(c, m, es);
    AdvanceIsSpecified(c, m.(prequeue := Whole(m, es)), m.previous, Latest(m, es));
  }

  // ------------------------------------------------------------------ items without a sampling interval

  /** The values that were there when the latest cycle ran. */
  function Reached(m: ItemState, es: seq<Event>): (r: seq<DataValue>)
  {
    if es == [] then []
    else if es[|es| - 1].Publish? then Whole(m, es)
    else Reached(m, es[..|es| - 1])
  }

  /**
   * Without an interval every polled value is a sample. Whatever the change test and whenever values are polled,
   * the item has accepted the changes among the values that the latest cycle found or that were there before.
   */
  lemma {:induction false} DrainsAsOne(c: Sampling, m: ItemState, es: seq<Event>)
    requires c.size >= 1 && c.interval <= 0
    ensures var r, kept := Run(c, m, es), Kept(c.changed, m.previous, Reached(m, es));
            && Reached(m, es) + r.prequeue == Whole(m, es)
            && r.previous == LastOf(kept, m.previous)
            && Accepted(c, m, es) == Stamped(c, kept)
    decreases |es|
  {
    hide Kept, EnqueueAll, Stamped;
    if es == [] {
      StampedNothing(c, m.previous);
      NothingKept(c.changed, m.previous);
      assert m.prequeue + [] == m.prequeue;
    } else {
      var front, e := es[..|es| - 1], es[|es| - 1];
      DrainsAsOne(c, m, front);
      var r, reached := Run(c, m, front), Reached(m, front);
      if e.Publish? {
        var kept := Kept(c.changed, m.previous, reached);
        KeptSplit(c.changed, m.previous, reached, r.prequeue);
        StampedConcat(c, kept, Kept(c.changed, r.previous, r.prequeue));
        assert Whole(m, es) + [] == Whole(m, es);
      } else if e.Poll? {
        assert reached + (r.prequeue + [e.v]) == Whole(m, front) + [e.v];
        assert Whole(m, front) + [e.v] == Whole(m, es);
      }
    }
  }

  // ------------------------------------------------------------------ the condition is exact

  /** The sampling of an item under a filter of the program for which its change test is steady. */
  ghost predicate OfProgram(c: Sampling)
  {
    Valid(c) && exists f :: TestOf(f, c.changed) && !Unbounded(f)
  }

  lemma ProgramSteady(c: Sampling)
    requires OfProgram(c)
    ensures Steady(c.changed)
  {
    hide IsDataChange, Unbounded, Steady;
    var f :| TestOf(f, c.changed) && !Unbounded(f);
    SteadyIff(f, c.changed);
  }

  /** The percent deadband counts everything as changed. */
  function Unfiltered(c: Sampling): (c': Sampling)
  {
    c.(changed := (v, p) => true)
  }

  lemma UnfilteredOfProgram(c: Sampling)
    requires Valid(c)
    ensures OfProgram(Unfiltered(c))
  {
    var f := Filter(StatusValue, Percent, NaN);
    assert TestOf(f, Unfiltered(c).changed) && !Unbounded(f);
  }

  lemma {:induction false} AllKept(c: Sampling, previous: DataValue, samples: seq<DataValue>)
    ensures Kept(Unfiltered(c).changed, previous, samples) == samples
    decreases |samples|
  {
    if samples != [] {
      AllKept(c, samples[0], samples[1..]);
    }
  }

  lemma {:induction false} SameInstants(c: Sampling, c': Sampling, ts: int, tn: int)
    requires Valid(c) && Valid(c') && c'.interval == c.interval
    ensures NextInstant(c', ts, tn) == NextInstant(c, ts, tn)
    decreases tn - ts
  {
    if ts <= tn {
      SameInstants(c, c', ts + c.interval, tn);
    }
  }

  /** Whether values come in time depends on the interval alone. */
  lemma {:induction false} SameDelays(c: Sampling, c': Sampling, m: ItemState, es: seq<Event>)
    requires Valid(c) && Valid(c') && c'.interval == c.interval
    ensures Undelayed(c', m, es) == Undelayed(c, m, es)
    decreases |es|
  {
    if es != [] {
      SameDelays(c, c', m, es[..|es| - 1]);
      SameInstants(c, c', m.ts, Latest(m, es[..|es| - 1]));
    }
  }

  /** After a value that comes too late, the last kept value is no longer that of one advance. */
  lemma LateTells(c: Sampling, m: ItemState, front: seq<Event>, v: DataValue)
    requires Valid(c) && Undelayed(c, m, front)
    requires !InTime(c, m, Whole(m, front), NextInstant(c, m.ts, Latest(m, front)), v)
    ensures !AsOneAdvance(Unfiltered(c), m, front + [Poll(v)])
  {
    hide Run, Accepted, Undelayed, Advance, SampleAt, InTime, NextInstant, AcceptedIn;
    var c', es := Unfiltered(c), front + [Poll(v)];
    var whole, t := Whole(m, front), Latest(m, front);
    SameInstants(c, c', m.ts, t);
    LateSample(c, m, whole, t, v);
    RunAfterPoll(c', m, front, v);
    PreviousOfRun(c, m, front);
    PreviousOfAdvance(c, m, whole + [v], t);
    assert Whole(m, es) == whole + [v];
  }

  lemma LateSample(c: Sampling, m: ItemState, whole: seq<DataValue>, t: int, v: DataValue)
    requires Valid(c) && !InTime(c, m, whole, NextInstant(c, m.ts, t), v)
    ensures m.ts <= t
    ensures var last := NextInstant(c, m.ts, t) - c.interval;
            SampleAt(whole, m.previous, last) != v && SampleAt(whole + [v], m.previous, last) == v
  {
    hide SampleAt, Due;
    var last := NextInstant(c, m.ts, t) - c.interval;
    DueSnoc(whole, v, last);
    SampleUnfold(whole, m.previous, last);
    SampleUnfold(whole + [v], m.previous, last);
  }

  lemma RunAfterPoll(c: Sampling, m: ItemState, front: seq<Event>, v: DataValue)
    requires Valid(c)
    ensures Run(c, m, front + [Poll(v)]).previous == Run(c, m, front).previous
    ensures Latest(m, front + [Poll(v)]) == Latest(m, front) && Polled(front + [Poll(v)]) == Polled(front) + [v]
  {
    assert (front + [Poll(v)])[..|front|] == front;
  }

  lemma PreviousOfRun(c: Sampling, m: ItemState, es: seq<Event>)
    requires Valid(c) && Undelayed(c, m, es) && m.ts <= Latest(m, es)
    ensures Run(Unfiltered(c), m, es).previous
            == SampleAt(Whole(m, es), m.previous, NextInstant(c, m.ts, Latest(m, es)) - c.interval)
  {
    hide SampleAt, Samples, Kept, Waits, NextInstant, Undelayed, Run, Accepted;
    var c', whole, t := Unfiltered(c), Whole(m, es), Latest(m, es);
    SameDelays(c, c', m, es);
    RunKeeps(c', m, es);
    AllKept(c, m.previous, Samples(c', whole, m.previous, m.ts, t));
    LastSample(c', whole, m.previous, m.ts, t);
    SameInstants(c, c', m.ts, t);
  }

  lemma PreviousOfAdvance(c: Sampling, m: ItemState, whole: seq<DataValue>, t: int)
    requires Valid(c) && m.ts <= t
    ensures AdvanceTo(Unfiltered(c), m.(prequeue := whole), t).previous
            == SampleAt(whole, m.previous, NextInstant(c, m.ts, t) - c.interval)
  {
    hide SampleAt, Samples, Kept, NextInstant, Advance, Left, EnqueueAll;
    var c', m' := Unfiltered(c), m.(prequeue := whole);
    AdvanceIsSpecified(c', m', m.previous, t);
    AllKept(c, m.previous, Samples(c', whole, m.previous, m.ts, t));
    LastSample(c', whole, m.previous, m.ts, t);
    SameInstants(c, c', m.ts, t);
  }

  lemma {:induction false} UndelayedBefore(c: Sampling, m: ItemState, es: seq<Event>, k: nat)
    requires Valid(c) && Undelayed(c, m, es) && k <= |es|
    ensures Undelayed(c, m, es[..k])
    decreases |es|
  {
    hide InTime;
    if k == |es| {
      assert es[..k] == es;
    } else {
      UndelayedBefore(c, m, es[..|es| - 1], k);
      assert es[..|es| - 1][..k] == es[..k];
    }
  }

  lemma {:induction false} FirstLate(c: Sampling, m: ItemState, es: seq<Event>) returns (k: nat)
    requires Valid(c) && !Undelayed(c, m, es)
    ensures k < |es| && Undelayed(c, m, es[..k]) && !Undelayed(c, m, es[..k + 1])
    decreases |es|
  {
    var front := es[..|es| - 1];
    if Undelayed(c, m, front) {
      k := |es| - 1;
      assert es[..k + 1] == es;
    } else {
      k := FirstLate(c, m, front);
      assert front[..k] == es[..k] && front[..k + 1] == es[..k + 1];
    }
  }

  lemma InTimeSuffices(c: Sampling, m: ItemState, es: seq<Event>, c': Sampling, k: nat)
    requires Valid(c) && Undelayed(c, m, es) && OfProgram(c') && c'.interval == c.interval && k <= |es|
    ensures AsOneAdvance(c', m, es[..k])
  {
    hide AsOneAdvance, TestOf, Unbounded, Steady, Undelayed;
    ProgramSteady(c');
    UndelayedBefore(c, m, es, k);
    SameDelays(c, c', m, es[..k]);
    RunIsOneAdvance(c', m, es[..k]);
  }

  /** If some value comes too late, then the history after it is not as one advance under every filter. */
  lemma LateShows(c: Sampling, m: ItemState, es: seq<Event>) returns (k: nat)
    requires Valid(c) && !Undelayed(c, m, es)
    ensures k <= |es| && !AsOneAdvance(Unfiltered(c), m, es[..k])
  {
    hide AsOneAdvance, InTime;
    var n := FirstLate(c, m, es);
    var front, e := es[..n], es[n];
    assert es[..n + 1] == front + [e] && es[..n + 1][..n] == front;
    LateTells(c, m, front, e.v);
    k := n + 1;
  }

  /**
   * When a history is as one advance at every moment, for every filter of the program with a steady test: exactly
   * when no value comes too late for the instants that were already sampled.
   */
  lemma UndelayedIff(c: Sampling, m: ItemState, es: seq<Event>)
    requires Valid(c)
    ensures Undelayed(c, m, es) <==>
            forall c': Sampling, k: nat | OfProgram(c') && c'.interval == c.interval && k <= |es| ::
              AsOneAdvance(c', m, es[..k])
  {
    hide AsOneAdvance, TestOf, Unbounded, Undelayed;
    if Undelayed(c, m, es) {
      forall c': Sampling, k: nat | OfProgram(c') && c'.interval == c.interval && k <= |es|
        ensures AsOneAdvance(c', m, es[..k])
      {
        InTimeSuffices(c, m, es, c', k);
      }
    } else {
      var k := LateShows(c, m, es);
      UnfilteredOfProgram(c);
    }
  }

  // ------------------------------------------------------------------ a value that comes too late

  function Stored(n: int, t: int): (v: DataValue)
  {
    DataValue(Signed(32, n), 0, t, t)
  }

  /** An item whose next instant is 10. */
  function AtStart(): (m: ItemState)
  {
    ItemState(10, [], Stored(0, 0), [])
  }

  /** The instant 10 is sampled before a variable that was written at 8 is polled. */
  function FirstPoll(): (es: seq<Event>)
  {
    [Publish(10), Poll(Stored(1, 8))]
  }

  ghost predicate ByDefault(c: Sampling)
  {
    && Valid(c) && c.interval == 10 && TestOf(Filter(StatusValue, NoDeadband, NaN), c.changed)
    && forall v :: c.stamp(v) == v
  }

  /**
   * The failing input, under the default filter with an interval of 10: a variable is written at 8 and at 15 and
   * polled at 12 and at 22. Whether a cycle comes between the two polls decides whether the first value is ever
   * accepted, for it comes too late for the instant 10.
   */
  lemma LateHistory(c: Sampling)
    requires ByDefault(c)
    ensures Accepted(c, AtStart(), FirstPoll() + [Poll(Stored(2, 15)), Publish(30)]) == [Stored(2, 15)]
    ensures Accepted(c, AtStart(), FirstPoll() + [Publish(20), Poll(Stored(2, 15)), Publish(30)])
            == [Stored(1, 8), Stored(2, 15)]
    ensures !Undelayed(c, AtStart(), FirstPoll())
  {
    hide ByDefault, Accepted, Undelayed;
    NoCycleBetween(c);
    CycleBetween(c);
    FirstPollLate(c);
  }

  lemma FirstPollLate(c: Sampling)
    requires ByDefault(c)
    ensures !Undelayed(c, AtStart(), FirstPoll())
  {
    hide TestOf;
    var front := [Publish(10)];
    assert FirstPoll()[..1] == front && front[..0] == [];
    assert Latest(AtStart(), front) == 10 && Polled(front) == [];
    assert NextInstant(c, 20, 10) == 20 && NextInstant(c, 10, 10) == 20;
    NoneDue(10);
  }

  lemma AfterFirstPoll(c: Sampling)
    requires ByDefault(c)
    ensures var r := Run(c, AtStart(), FirstPoll());
            r.ts == 20 && r.prequeue == [Stored(1, 8)] && r.previous == Stored(0, 0)
    ensures Accepted(c, AtStart(), FirstPoll()) == []
  {
    hide TestOf, Advance, AcceptedIn, Accepted, Run, Due;
    Different(c, 0, 0, 0, 0);
    NoneDue(10);
    AtOneInstant(c, AtStart(), 10);
    AfterEvent(c, AtStart(), [], Publish(10));
    assert [] + [Publish(10)] == [Publish(10)];
    AfterEvent(c, AtStart(), [Publish(10)], Poll(Stored(1, 8)));
    assert [Publish(10)] + [Poll(Stored(1, 8))] == FirstPoll();
  }

  /** At 20 both values are due. */
  lemma NoCycleBetween(c: Sampling)
    requires ByDefault(c)
    ensures Accepted(c, AtStart(), FirstPoll() + [Poll(Stored(2, 15)), Publish(30)]) == [Stored(2, 15)]
  {
    hide TestOf, Advance, AcceptedIn, Accepted, Run, Due;
    var m, es, one, two := AtStart(), FirstPoll(), Stored(1, 8), Stored(2, 15);
    Different(c, 2, 15, 0, 0);
    Different(c, 2, 15, 2, 15);
    AfterFirstPoll(c);
    AfterEvent(c, m, es, Poll(two));
    var r := Run(c, m, es + [Poll(two)]);
    assert r.prequeue == [one, two];
    BothDue(one, two, 20);
    AtTwoInstants(c, r, 30);
    AfterEvent(c, m, es + [Poll(two)], Publish(30));
    assert es + [Poll(two)] + [Publish(30)] == es + [Poll(two), Publish(30)];
  }

  /** The first value is sampled at 20. */
  lemma CycleBetween(c: Sampling)
    requires ByDefault(c)
    ensures Accepted(c, AtStart(), FirstPoll() + [Publish(20), Poll(Stored(2, 15)), Publish(30)])
            == [Stored(1, 8), Stored(2, 15)]
  {
    hide TestOf, Advance, AcceptedIn, Accepted, Run, Due;
    var m, es, one, two := AtStart(), FirstPoll(), Stored(1, 8), Stored(2, 15);
    Different(c, 1, 8, 0, 0);
    Different(c, 2, 15, 1, 8);
    AfterFirstPoll(c);
    BothDue(one, one, 20);
    AtOneInstant(c, Run(c, m, es), 20);
    AfterEvent(c, m, es, Publish(20));
    var es4 := es + [Publish(20)];
    AfterEvent(c, m, es4, Poll(two));
    assert Run(c, m, es4 + [Poll(two)]).prequeue == [two];
    BothDue(two, two, 30);
    AtOneInstant(c, Run(c, m, es4 + [Poll(two)]), 30);
    AfterEvent(c, m, es4 + [Poll(two)], Publish(30));
    assert es4 + [Poll(two)] + [Publish(30)] == es + [Publish(20), Poll(two), Publish(30)];
  }

  lemma Different(c: Sampling, n: int, t: int, n': int, t': int)
    requires TestOf(Filter(StatusValue, NoDeadband, NaN), c.changed)
    ensures c.changed(Stored(n, t), Stored(n', t')) <==> n != n'
  {
    assert IsDataChange(Filter(StatusValue, NoDeadband, NaN), Stored(n, t), Stored(n', t')) <==> n != n';
  }

  lemma NoneDue(t: int)
    ensures Due([], t) == 0
  {
  }

  lemma BothDue(a: DataValue, b: DataValue, t: int)
    requires a.serverTime <= t && b.serverTime <= t
    ensures Due([a], t) == Due([b], t) == 1 && Due([a, b], t) == 2
  {
    assert [a, b][1..] == [b] && [b][1..] == [] && [a][1..] == [];
  }

  /** A cycle that reaches one instant, at which everything that waits is due. */
  lemma AtOneInstant(c: Sampling, m: ItemState, tn: int)
    requires Valid(c) && m.ts <= tn < m.ts + c.interval && Due(m.prequeue, m.ts) == |m.prequeue|
    requires forall v :: c.stamp(v) == v
    ensures var v, r := LastOf(m.prequeue, m.previous), AdvanceTo(c, m, tn);
            && r.ts == m.ts + c.interval && r.prequeue == []
            && r.previous == (if c.changed(v, m.previous) then v else m.previous)
            && AcceptedIn(c, m, tn) == if c.changed(v, m.previous) then [v] else []
  {
    hide Due, EnqueueAll, Advance, Samples, NextInstant, Left, SampleAt;
    var v := LastOf(m.prequeue, m.previous);
    AdvanceIsSpecified(c, m, m.previous, tn);
    OneSample(c, m, tn);
    assert [v][1..] == [] && Kept(c.changed, v, []) == [] && Kept(c.changed, m.previous, []) == [];
    assert Stamped(c, [v]) == [v] && Stamped(c, []) == [];
  }

  lemma OneSample(c: Sampling, m: ItemState, tn: int)
    requires Valid(c) && m.ts <= tn < m.ts + c.interval && Due(m.prequeue, m.ts) == |m.prequeue|
    ensures Samples(c, m.prequeue, m.previous, m.ts, tn) == [LastOf(m.prequeue, m.previous)]
    ensures NextInstant(c, m.ts, tn) == m.ts + c.interval && Left(c, m.prequeue, m.ts, tn) == []
  {
    hide Due;
    SampleUnfold(m.prequeue, m.previous, m.ts);
    assert Samples(c, m.prequeue, m.previous, m.ts + c.interval, tn) == [];
  }

  /** A cycle that reaches two instants, at the first of which everything that waits is due. */
  lemma AtTwoInstants(c: Sampling, m: ItemState, tn: int)
    requires Valid(c) && m.ts + c.interval <= tn < m.ts + 2 * c.interval && Due(m.prequeue, m.ts) == |m.prequeue|
    requires var v := LastOf(m.prequeue, m.previous); c.changed(v, m.previous) && !c.changed(v, v)
    requires forall v :: c.stamp(v) == v
    ensures AcceptedIn(c, m, tn) == [LastOf(m.prequeue, m.previous)]
  {
    hide Due;
    var v := LastOf(m.prequeue, m.previous);
    DueRest(m.prequeue, m.ts, m.ts + c.interval);
    SampleUnfold(m.prequeue, m.previous, m.ts);
    SampleUnfold(m.prequeue, m.previous, m.ts + c.interval);
    assert Samples(c, m.prequeue, m.previous, m.ts + 2 * c.interval, tn) == [];
    assert Samples(c, m.prequeue, m.previous, m.ts + c.interval, tn) == [v];
    assert Samples(c, m.prequeue, m.previous, m.ts, tn) == [v, v];
    assert [v, v][1..] == [v] && [v][1..] == [];
    assert Kept(c.changed, v, [v]) == [];
    assert Stamped(c, [v]) == [v];
  }
}
