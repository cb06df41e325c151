/**
 * The queue of a monitored item with its two discard policies, and interval sampling from the pre-queue
 * (OPC UA Part 4, sections 5.12.1.2 and 5.12.1.5), from the data-change and event items of opcua/server.
 */
module MonitoredItems {

  // ------------------------------------------------------------------ bounded queue

  /** What `enqueue` leaves in the queue. */
  function Enqueue<T>(q: seq<T>, size: nat, discardOldest: bool, x: T): (r: seq<T>)
    requires size >= 1
    ensures 1 <= |r| && r[|r| - 1] == x
    ensures |q| <= size ==> |r| <= size
  {
    if |q| < size then q + [x]
    else if discardOldest then q[|q| - size + 1..] + [x]
    else q[..size - 1] + [x]
  }

  function EnqueueAll<T>(q: seq<T>, size: nat, discardOldest: bool, xs: seq<T>): (r: seq<T>)
    requires size >= 1
    decreases |xs|
  {
    if xs == [] then q else EnqueueAll(Enqueue(q, size, discardOldest, xs[0]), size, discardOldest, xs[1..])
  }

  /** The overflow policies in closed form: the last `size`, or the first `size - 1` and the newest. */
  function Survivors<T>(all: seq<T>, size: nat, discardOldest: bool): (r: seq<T>)
    requires size >= 1
    ensures |r| == if |all| <= size then |all| else size
  {
    if |all| <= size then all
    else if discardOldest then all[|all| - size..]
    else all[..size - 1] + [all[|all| - 1]]
  }

  /** However many values are enqueued between two publications, exactly the policy's survivors remain. */
  lemma {:induction false} EnqueueAllSurvivors<T>(q: seq<T>, size: nat, discardOldest: bool, xs: seq<T>)
    requires 1 <= size && |q| <= size
    ensures EnqueueAll(q, size, discardOldest, xs) == Survivors(q + xs, size, discardOldest)
    decreases |xs|
  {
    hide Survivors, Enqueue;
    if xs == [] {
      assert q + xs == q;
      FewSurvive(q, size, discardOldest);
    } else {
      EnqueueAllSurvivors(Enqueue(q, size, discardOldest, xs[0]), size, discardOldest, xs[1..]);
      assert q + xs == (q + [xs[0]]) + xs[1..];
      OneSurvives(q, size, discardOldest, xs[0], xs[1..]);
    }
  }

  lemma FewSurvive<T>(q: seq<T>, size: nat, discardOldest: bool)
    requires 1 <= size && |q| <= size
    ensures Survivors(q, size, discardOldest) == q
  {
  }

  lemma OneSurvives<T>(q: seq<T>, size: nat, discardOldest: bool, x: T, xs: seq<T>)
    requires 1 <= size && |q| <= size
    ensures Survivors(Enqueue(q, size, discardOldest, x) + xs, size, discardOldest)
            == Survivors(q + [x] + xs, size, discardOldest)
  {
    var a, b := Enqueue(q, size, discardOldest, x) + xs, q + [x] + xs;
    if |q| == size {
      if discardOldest {
        assert a == b[1..];
        assert a[|a| - size..] == b[|b| - size..];
      } else if xs == [] {
        assert a == q[..size - 1] + [x];
      } else {
        assert a[..size - 1] == b[..size - 1];
        assert a[|a| - 1] == b[|b| - 1];
      }
    } else {
      assert a == b;
    }
  }

  /** The loops of `enqueue`, in both kinds of item. */
  method EnqueueOne<T>(queue: seq<T>, size: nat, discardOldest: bool, x: T) returns (q: seq<T>, overflow: bool)
    requires size >= 1
    ensures q == Enqueue(queue, size, discardOldest, x)
    ensures overflow <==> |queue| >= size
  {
    q, overflow := queue, false;
    if discardOldest {
      while |q| >= size
        invariant q == queue[|queue| - |q|..]
        invariant if overflow then |q| >= size - 1 else q == queue
        invariant overflow ==> |queue| >= size
      {
        q := q[1..];
        overflow := true;
      }
    } else {
      while |q| >= size
        invariant q == queue[..|q|]
        invariant if overflow then |q| >= size - 1 else q == queue
        invariant overflow ==> |queue| >= size
      {
        q := q[..|q| - 1];
        overflow := true;
      }
    }
    q := q + [x];
  }

  /** The loop of `notifications`: at most `max` values from the front, and whether any are left. */
  method TakeSome<T>(queue: seq<T>, max: int) returns (taken: seq<T>, rest: seq<T>, more: bool)
    ensures taken + rest == queue
    ensures |taken| == if max <= 0 then 0 else if |queue| <= max then |queue| else max
    ensures more <==> rest != []
  {
    taken, rest := [], queue;
    var i := 0;
    while i < max
      invariant |taken| == i && (max <= 0 ==> i == 0) && (0 <= max ==> i <= max)
      invariant taken + rest == queue
    {
      if |rest| == 0 {
        break;
      }
      taken, rest := taken + [rest[0]], rest[1..];
      i := i + 1;
    }
    more := |rest| > 0;
  }

  /** What a change of the queue size leaves: the newest values, or the oldest. */
  function Trim<T>(q: seq<T>, size: nat, discardOldest: bool): (r: seq<T>)
  {
    if |q| <= size then q else if discardOldest then q[|q| - size..] else q[..size]
  }

  const MAX_QUEUE_SIZE := 1024

  /** The queue size of a data-change item: the requested one, brought into range. */
  function RevisedSize(requested: nat): (size: nat)
    ensures 1 <= size <= MAX_QUEUE_SIZE && (1 <= requested <= MAX_QUEUE_SIZE ==> size == requested)
    ensures (requested == 0 ==> size == 1) && (requested > MAX_QUEUE_SIZE ==> size == MAX_QUEUE_SIZE)
  {
    if requested > MAX_QUEUE_SIZE then MAX_QUEUE_SIZE else if requested < 1 then 1 else requested
  }

  /** `setQueueSize` of the data-change item: the revised size, and the trimmed queue. */
  method SetQueueSize<T>(queue: seq<T>, requested: nat, discardOldest: bool) returns (size: nat, q: seq<T>)
    ensures size == RevisedSize(requested)
    ensures q == Trim(queue, size, discardOldest)
  {
    size := if requested > MAX_QUEUE_SIZE then MAX_QUEUE_SIZE else requested;
    if size < 1 {
      size := 1;
    }
    if discardOldest {
      q := DropFront(queue, size);
    } else {
      q := DropBack(queue, size);
    }
  }

  method DropFront<T>(queue: seq<T>, size: nat) returns (q: seq<T>)
    ensures q == Trim(queue, size, true)
  {
    q := queue;
    var n := 0;
    while |q| > size
      invariant n <= |queue| && q == queue[n..] && (n > 0 ==> |q| >= size)
    {
      q := q[1..];
      n := n + 1;
    }
  }

  method DropBack<T>(queue: seq<T>, size: nat) returns (q: seq<T>)
    ensures q == Trim(queue, size, false)
  {
    q := queue;
    while |q| > size
      invariant |q| <= |queue| && q == queue[..|q|] && (|q| < |queue| ==> |q| >= size)
    {
      q := q[..|q| - 1];
    }
  }

  // ------------------------------------------------------------------ change test

  /** A floating-point number, without its rounding. */
  datatype Number = NaN | NegativeInfinity | PositiveInfinity | Finite(x: real)

  /** A value as the comparisons see it. Slices have an address, since equal addresses cut a comparison short. */
  datatype Variant =
    | Null
    | Signed(bits: nat, i: int)
    | Unsigned(bits: nat, u: nat)
    | Floating(bits: nat, f: Number)
    | ByteSlice(missing: bool, address: nat, bytes: seq<int>)
    | Slice(elementType: nat, missing: bool, address: nat, elements: seq<Variant>)
    | Other(otherType: nat, text: string)

  datatype DataValue = DataValue(value: Variant, status: nat, sourceTime: int, serverTime: int)

  datatype Trigger = Status | StatusValue | StatusValueTimestamp | UnknownTrigger

  datatype Deadband = NoDeadband | Absolute | Percent | UnknownDeadband

  datatype Filter = Filter(trigger: Trigger, deadband: Deadband, limit: Number)

  type Changed = (DataValue, DataValue) -> bool

  function Minus(a: Number, b: Number): (r: Number)
  {
    if a.NaN? || b.NaN? then NaN
    else if a.Finite? && b.Finite? then Finite(a.x - b.x)
    else if a == b then NaN
    else if a.PositiveInfinity? || b.NegativeInfinity? then PositiveInfinity
    else NegativeInfinity
  }

  function Abs(a: Number): (r: Number)
  {
    match a
    case NaN => NaN
    case Finite(x) => if x < 0.0 then Finite(-x) else a
    case _ => PositiveInfinity
  }

  predicate AtMost(a: Number, b: Number)
  {
    && !a.NaN? && !b.NaN?
    && (a.NegativeInfinity? || b.PositiveInfinity? || (a.Finite? && b.Finite? && a.x <= b.x))
  }

  const TWO_63: int := 0x8000_0000_0000_0000
  const TWO_64: int := 0x1_0000_0000_0000_0000

  /** The difference of two signed 64-bit integers, which wraps around. */
  function SignedDifference(i: int, j: int): (r: int)
  {
    (i - j + TWO_63) % TWO_64 - TWO_63
  }

  /** `equalDeadbandAbsolute`. The elements of a slice never compare equal, because they arrive wrapped. */
  predicate WithinAbsolute(c: Variant, p: Variant, limit: Number)
  {
    match (c, p)
    case (Null, Null) => true
    case (Signed(b, i), Signed(b', j)) => b == b' && AtMost(Abs(Finite(SignedDifference(i, j) as real)), limit)
    case (Unsigned(b, u), Unsigned(b', v)) => b == b' && AtMost(Abs(Finite(((u - v) % TWO_64) as real)), limit)
    case (Floating(b, x), Floating(b', y)) => b == b' && AtMost(Abs(Minus(x, y)), limit)
    case (ByteSlice(n, a, x), ByteSlice(n', a', y)) => n == n' && |x| == |y| && (a == a' || x == y)
    case (Slice(t, n, a, x), Slice(t', n', a', y)) => t == t' && n == n' && |x| == |y| && (a == a' || x == [])
    case _ => false
  }

  /** `reflect.DeepEqual`: a NaN equals nothing, unless it lies in one and the same slice. */
  predicate DeepEqual(c: Variant, p: Variant)
    decreases c
  {
    match (c, p)
    case (Floating(b, x), Floating(b', y)) => b == b' && x == y && !x.NaN?
    case (ByteSlice(n, a, x), ByteSlice(n', a', y)) => n == n' && |x| == |y| && (a == a' || x == y)
    case (Slice(t, n, a, x), Slice(t', n', a', y)) =>
      t == t' && n == n' && |x| == |y| && (a == a' || forall k :: 0 <= k < |x| ==> DeepEqual(x[k], y[k]))
    case _ => c == p
  }

  function ValueChanged(f: Filter, current: DataValue, previous: DataValue): (r: bool)
  {
    match f.deadband
    case NoDeadband => !DeepEqual(current.value, previous.value)
    case Absolute => !WithinAbsolute(current.value, previous.value, f.limit)
    case _ => true
  }

  function IsDataChange(f: Filter, current: DataValue, previous: DataValue): (r: bool)
  {
    var statusChanged := current.status / 0x1000 != previous.status / 0x1000;
    match f.trigger
    case Status => statusChanged
    case StatusValue => statusChanged || ValueChanged(f, current, previous)
    case StatusValueTimestamp =>
      statusChanged || current.sourceTime != previous.sourceTime || ValueChanged(f, current, previous)
    case UnknownTrigger => true
  }

  /** A value that counts as changed from itself makes every value count as changed from it. */
  ghost predicate Steady(changed: Changed)
  {
    forall v, p :: changed(p, p) ==> changed(v, p)
  }

  /** The one kind of filter for which the program's test is not steady: an absolute deadband of +Inf. */
  predicate Unbounded(f: Filter)
  {
    && (f.trigger == StatusValue || f.trigger == StatusValueTimestamp)
    && f.deadband == Absolute && f.limit == PositiveInfinity
  }

  ghost predicate TestOf(f: Filter, changed: Changed)
  {
    forall v, p :: changed(v, p) == IsDataChange(f, v, p)
  }

  lemma DeepEqualSteady(v: Variant, p: Variant)
    requires DeepEqual(v, p)
    ensures DeepEqual(p, p)
  {
  }

  lemma WithinSteady(v: Variant, p: Variant, limit: Number)
    requires WithinAbsolute(v, p, limit) && limit != PositiveInfinity
    ensures WithinAbsolute(p, p, limit)
  {
    match p
    case Signed(b, j) => assert SignedDifference(j, j) == 0;
    case Unsigned(b, u) => assert (u - u) % TWO_64 == 0;
    case _ =>
  }

  /** Against +Inf, an unbounded deadband finds +Inf changed and every other number unchanged. */
  function AtInfinity(t: int): (v: DataValue)
  {
    DataValue(Floating(64, PositiveInfinity), 0, 0, t)
  }

  function AtZero(t: int): (v: DataValue)
  {
    DataValue(Floating(64, Finite(0.0)), 0, 0, t)
  }

  lemma UnboundedIsUnsteady(f: Filter, t: int)
    requires Unbounded(f)
    ensures IsDataChange(f, AtInfinity(t), AtInfinity(t)) && !IsDataChange(f, AtZero(t), AtInfinity(t))
  {
  }

  /** For which filters the program's change test is steady: for all but those with an unbounded deadband. */
  lemma SteadyIff(f: Filter, changed: Changed)
    requires TestOf(f, changed)
    ensures Steady(changed) <==> !Unbounded(f)
  {
    if Unbounded(f) {
      UnboundedIsUnsteady(f, 0);
      assert changed(AtInfinity(0), AtInfinity(0)) && !changed(AtZero(0), AtInfinity(0));
    } else {
      forall v: DataValue, p: DataValue | changed(p, p)
        ensures changed(v, p)
      {
        ChangedFromItself(f, v, p);
      }
    }
  }

  lemma ChangedFromItself(f: Filter, v: DataValue, p: DataValue)
    requires !Unbounded(f) && IsDataChange(f, p, p)
    ensures IsDataChange(f, v, p)
  {
    hide DeepEqual, WithinAbsolute;
    if f.deadband == NoDeadband && DeepEqual(v.value, p.value) {
      DeepEqualSteady(v.value, p.value);
    } else if f.deadband == Absolute && WithinAbsolute(v.value, p.value, f.limit) && f.limit != PositiveInfinity {
      WithinSteady(v.value, p.value, f.limit);
    }
  }

  // ------------------------------------------------------------------ sampling

  /** What stays fixed while an item is sampled. `stamp` drops the timestamps that were not asked for. */
  datatype Sampling = Sampling(
    interval: int, size: nat, discardOldest: bool, changed: Changed, stamp: DataValue -> DataValue)

  datatype ItemState = ItemState(ts: int, prequeue: seq<DataValue>, previous: DataValue, queue: seq<DataValue>)

  ghost predicate Valid(c: Sampling)
  {
    c.interval > 0 && c.size >= 1
  }

  /** The leading pre-queue values that are not later than `t`. */
  function Due(prequeue: seq<DataValue>, t: int): (n: nat)
    ensures n <= |prequeue|
  {
    if prequeue == [] || prequeue[0].serverTime > t then 0 else 1 + Due(prequeue[1..], t)
  }

  /** The sample at instant `t`: the last value that is due, or what was held before. */
  function SampleAt(prequeue: seq<DataValue>, held: DataValue, t: int): (v: DataValue)
  {
    var n := Due(prequeue, t);
    if n == 0 then held else prequeue[n - 1]
  }

  /** The loop body of `notificationsAvailable` for the instant `m.ts`, holding `v`. */
  function AtInstant(c: Sampling, m: ItemState, held: DataValue): (r: ItemState)
    requires c.size >= 1
  {
    var v := SampleAt(m.prequeue, held, m.ts);
    var m' := m.(ts := m.ts + c.interval, prequeue := m.prequeue[Due(m.prequeue, m.ts)..]);
    if c.changed(v, m.previous)
    then m'.(queue := Enqueue(m.queue, c.size, c.discardOldest, c.stamp(v)), previous := v) else m'
  }

  /** All instants up to `tn`, starting with `held` as the latest sample. */
  ghost function Advance(c: Sampling, m: ItemState, held: DataValue, tn: int): (r: ItemState)
    requires Valid(c)
    decreases tn - m.ts
  {
    if m.ts > tn then m
    else Advance(c, AtInstant(c, m, held), SampleAt(m.prequeue, held, m.ts), tn)
  }

  lemma AdvanceOnce(c: Sampling, m: ItemState, held: DataValue, tn: int)
    requires Valid(c)
    ensures Advance(c, m, held, tn)
            == if m.ts > tn then m else Advance(c, AtInstant(c, m, held), SampleAt(m.prequeue, held, m.ts), tn)
  {
  }

  /** One call of `notificationsAvailable`: it starts from the last queued value. */
  ghost function AdvanceTo(c: Sampling, m: ItemState, tn: int): (r: ItemState)
    requires Valid(c)
  {
    Advance(c, m, m.previous, tn)
  }

  // ------------------------------------------------------------------ the simple specification

  /** The samples at `ts`, `ts + interval`, ... up to `tn`. */
  ghost function Samples(c: Sampling, prequeue: seq<DataValue>, held: DataValue, ts: int, tn: int): (r: seq<DataValue>)
    requires Valid(c)
    decreases tn - ts
  {
    if ts > tn then []
    else [SampleAt(prequeue, held, ts)] + Samples(c, prequeue, held, ts + c.interval, tn)
  }

  /** The samples that differ from the one kept before them. */
  function Kept(changed: Changed, previous: DataValue, samples: seq<DataValue>): (r: seq<DataValue>)
    decreases |samples|
  {
    if samples == [] then []
    else if changed(samples[0], previous) then [samples[0]] + Kept(changed, samples[0], samples[1..])
    else Kept(changed, previous, samples[1..])
  }

  function Stamped(c: Sampling, vs: seq<DataValue>): (r: seq<DataValue>)
    ensures |r| == |vs|
  {
    seq(|vs|, i requires 0 <= i < |vs| => c.stamp(vs[i]))
  }

  /** The first instant after `tn`. */
  ghost function NextInstant(c: Sampling, ts: int, tn: int): (r: int)
    requires Valid(c)
    decreases tn - ts
  {
    if ts > tn then ts else NextInstant(c, ts + c.interval, tn)
  }

  /** The pre-queue values that the last instant up to `tn` has not reached. */
  ghost function Left(c: Sampling, prequeue: seq<DataValue>, ts: int, tn: int): (r: seq<DataValue>)
    requires Valid(c)
  {
    if ts > tn then prequeue else prequeue[Due(prequeue, NextInstant(c, ts, tn) - c.interval)..]
  }

  ghost function Specified(c: Sampling, m: ItemState, held: DataValue, tn: int): (r: ItemState)
    requires Valid(c)
  {
    var kept := Kept(c.changed, m.previous, Samples(c, m.prequeue, held, m.ts, tn));
    ItemState(
      NextInstant(c, m.ts, tn),
      Left(c, m.prequeue, m.ts, tn),
      if kept == [] then m.previous else kept[|kept| - 1],
      EnqueueAll(m.queue, c.size, c.discardOldest, Stamped(c, kept)))
  }

  lemma {:induction false} DueRest(prequeue: seq<DataValue>, t: int, u: int)
    requires t <= u
    ensures Due(prequeue, t) <= Due(prequeue, u)
    ensures Due(prequeue[Due(prequeue, t)..], u) == Due(prequeue, u) - Due(prequeue, t)
  {
    if prequeue == [] || prequeue[0].serverTime > t {
      assert prequeue[0..] == prequeue;
    } else {
      DueRest(prequeue[1..], t, u);
      assert prequeue[1..][Due(prequeue[1..], t)..] == prequeue[Due(prequeue, t)..];
    }
  }

  lemma DropIndex<T>(s: seq<T>, a: nat, b: nat)
    requires a <= b <= |s|
    ensures a < b ==> s[a..][b - a - 1] == s[b - 1]
  {
  }

  lemma SampleUnfold(prequeue: seq<DataValue>, held: DataValue, t: int)
    ensures var n := Due(prequeue, t);
            SampleAt(prequeue, held, t) == if n == 0 then held else prequeue[n - 1]
  {
    hide Due;
  }

  /** Values that were taken at an earlier instant make no difference later on. */
  lemma SampleLater(prequeue: seq<DataValue>, held: DataValue, t: int, u: int)
    requires t <= u
    ensures SampleAt(prequeue[Due(prequeue, t)..], SampleAt(prequeue, held, t), u) == SampleAt(prequeue, held, u)
  {
    hide Due, SampleAt;
    var a, b := Due(prequeue, t), Due(prequeue, u);
    var rest, v := prequeue[a..], SampleAt(prequeue, held, t);
    DueRest(prequeue, t, u);
    DropIndex(prequeue, a, b);
    SampleUnfold(prequeue, held, t);
    SampleUnfold(prequeue, held, u);
    SampleUnfold(rest, v, u);
  }

  lemma {:induction false} SamplesLater(c: Sampling, prequeue: seq<DataValue>, held: DataValue, t: int, ts: int,
                                        tn: int)
    requires Valid(c) && t <= ts
    ensures Samples(c, prequeue[Due(prequeue, t)..], SampleAt(prequeue, held, t), ts, tn)
            == Samples(c, prequeue, held, ts, tn)
    decreases tn - ts
  {
    if ts <= tn {
      SampleLater(prequeue, held, t, ts);
      SamplesLater(c, prequeue, held, t, ts + c.interval, tn);
    }
  }

  lemma {:induction false} NextInstantPast(c: Sampling, ts: int, tn: int)
    requires Valid(c)
    ensures NextInstant(c, ts, tn) >= ts && NextInstant(c, ts, tn) > tn
    ensures ts <= tn ==> NextInstant(c, ts, tn) - c.interval >= ts
    decreases tn - ts
  {
    if ts <= tn {
      NextInstantPast(c, ts + c.interval, tn);
    }
  }

  /** The nested loops compute the simple specification: the latest value at each instant, kept if changed. */
  lemma {:induction false} AdvanceIsSpecified(c: Sampling, m: ItemState, held: DataValue, tn: int)
    requires Valid(c)
    ensures Advance(c, m, held, tn) == Specified(c, m, held, tn)
    decreases tn - m.ts
  {
    if m.ts > tn {
      assert Stamped(c, []) == [];
    } else {
      var m' := AtInstant(c, m, held);
      var v := SampleAt(m.prequeue, held, m.ts);
      AdvanceIsSpecified(c, m', v, tn);
      SpecifiedStep(c, m, held, tn);
    }
  }

  lemma SpecifiedStep(c: Sampling, m: ItemState, held: DataValue, tn: int)
    requires Valid(c) && m.ts <= tn
    ensures Specified(c, m, held, tn) == Specified(c, AtInstant(c, m, held), SampleAt(m.prequeue, held, m.ts), tn)
  {
    hide Due, SampleAt, Kept, Samples, Enqueue, EnqueueAll, NextInstant, Stamped, Left;
    var ts' := m.ts + c.interval;
    var v := SampleAt(m.prequeue, held, m.ts);
    var later := Samples(c, m.prequeue, held, ts', tn);
    SamplesLater(c, m.prequeue, held, m.ts, ts', tn);
    UnfoldInstant(c, m.prequeue, held, m.ts, tn);
    KeptStep(c, m.previous, v, later, m.queue);
    LeftStep(c, m.prequeue, m.ts, tn);
  }

  lemma LeftStep(c: Sampling, prequeue: seq<DataValue>, ts: int, tn: int)
    requires Valid(c) && ts <= tn
    ensures Left(c, prequeue, ts, tn) == Left(c, prequeue[Due(prequeue, ts)..], ts + c.interval, tn)
  {
    hide Due, NextInstant, Left;
    NextInstantOnce(c, ts, tn);
    LeftUnfold(c, prequeue, ts, tn);
    if ts + c.interval > tn {
      LeftUnfold(c, prequeue[Due(prequeue, ts)..], ts + c.interval, tn);
    } else {
      NextInstantPast(c, ts + c.interval, tn);
      LeftLater(c, prequeue, ts, tn, NextInstant(c, ts, tn) - c.interval);
    }
  }

  lemma LeftLater(c: Sampling, prequeue: seq<DataValue>, ts: int, tn: int, last: int)
    requires Valid(c) && ts + c.interval <= tn && ts <= last == NextInstant(c, ts + c.interval, tn) - c.interval
    ensures Left(c, prequeue[Due(prequeue, ts)..], ts + c.interval, tn) == prequeue[Due(prequeue, last)..]
  {
    hide Due, NextInstant, Left;
    var n, k := Due(prequeue, ts), Due(prequeue, last);
    var rest := prequeue[n..];
    LeftUnfold(c, rest, ts + c.interval, tn);
    DueRest(prequeue, ts, last);
    DropDrop(prequeue, n, k);
  }

  lemma LeftUnfold(c: Sampling, prequeue: seq<DataValue>, ts: int, tn: int)
    requires Valid(c)
    ensures Left(c, prequeue, ts, tn)
            == if ts > tn then prequeue else prequeue[Due(prequeue, NextInstant(c, ts, tn) - c.interval)..]
  {
    hide Due, NextInstant;
  }

  lemma DropDrop<T>(s: seq<T>, a: nat, b: nat)
    requires a <= b <= |s|
    ensures s[a..][b - a..] == s[b..]
  {
  }

  lemma NextInstantOnce(c: Sampling, ts: int, tn: int)
    requires Valid(c) && ts <= tn
    ensures NextInstant(c, ts, tn) == NextInstant(c, ts + c.interval, tn)
    ensures ts + c.interval > tn ==> NextInstant(c, ts + c.interval, tn) == ts + c.interval
  {
  }

  lemma UnfoldInstant(c: Sampling, prequeue: seq<DataValue>, held: DataValue, ts: int, tn: int)
    requires Valid(c) && ts <= tn
    ensures Samples(c, prequeue, held, ts, tn)
            == [SampleAt(prequeue, held, ts)] + Samples(c, prequeue, held, ts + c.interval, tn)
    ensures NextInstant(c, ts, tn) == NextInstant(c, ts + c.interval, tn)
  {
  }

  lemma KeptStep(c: Sampling, previous: DataValue, v: DataValue, later: seq<DataValue>, queue: seq<DataValue>)
    requires c.size >= 1
    ensures var kept := Kept(c.changed, previous, [v] + later);
            if c.changed(v, previous) then
              && kept == [v] + Kept(c.changed, v, later)
              && EnqueueAll(queue, c.size, c.discardOldest, Stamped(c, kept))
                 == EnqueueAll(Enqueue(queue, c.size, c.discardOldest, c.stamp(v)), c.size, c.discardOldest,
                               Stamped(c, Kept(c.changed, v, later)))
            else kept == Kept(c.changed, previous, later)
  {
    assert ([v] + later)[1..] == later;
    if c.changed(v, previous) {
      var rest := Kept(c.changed, v, later);
      assert Stamped(c, [v] + rest)[1..] == Stamped(c, rest);
    }
  }

  // ------------------------------------------------------------------ independence of the publishing rate

  /** After an instant the held sample is the last kept one, or it was found not to differ from it. */
  ghost predicate Settled(c: Sampling, m: ItemState, held: DataValue)
  {
    held == m.previous || !c.changed(held, m.previous)
  }

  /** Restarting from the last kept value instead of the held one makes no difference to a steady test. */
  lemma {:induction false} RestartIsSame(c: Sampling, m: ItemState, held: DataValue, tn: int)
    requires Valid(c) && Steady(c.changed) && Settled(c, m, held)
    ensures Advance(c, m, held, tn) == Advance(c, m, m.previous, tn)
    decreases tn - m.ts
  {
    hide Due, Enqueue;
    if m.ts <= tn && Due(m.prequeue, m.ts) == 0 && held != m.previous {
      // nothing new is due: neither the held value nor, being steady, the kept one counts as changed
      var m' := AtInstant(c, m, held);
      assert m' == AtInstant(c, m, m.previous);
      RestartIsSame(c, m', held, tn);
    }
  }

  lemma {:induction false} AdvanceInTwo(c: Sampling, m: ItemState, held: DataValue, t1: int, t2: int)
    requires Valid(c) && Steady(c.changed) && t1 <= t2
    requires m.ts > t1 ==> Settled(c, m, held)
    ensures AdvanceTo(c, Advance(c, m, held, t1), t2) == Advance(c, m, held, t2)
    decreases t1 - m.ts
  {
    if m.ts > t1 {
      RestartIsSame(c, m, held, t2);
    } else {
      hide Due, Enqueue, SampleAt;
      AdvanceInTwo(c, AtInstant(c, m, held), SampleAt(m.prequeue, held, m.ts), t1, t2);
    }
  }

  /** `notificationsAvailable` at `t1` and then at `t2` leaves the same item as at `t2` alone. */
  ghost predicate SplitsAt(c: Sampling, m: ItemState, t1: int, t2: int)
    requires Valid(c)
  {
    AdvanceTo(c, AdvanceTo(c, m, t1), t2) == AdvanceTo(c, m, t2)
  }

  /**
   * Sampling does not depend on how often publishing runs, for all items and times, exactly when the change
   * test is steady.
   */
  lemma IndependentIffSteady(c: Sampling)
    requires Valid(c)
    ensures Steady(c.changed) <==> forall m: ItemState, t1: int, t2: int | t1 <= t2 :: SplitsAt(c, m, t1, t2)
  {
    if Steady(c.changed) {
      forall m: ItemState, t1: int, t2: int | t1 <= t2
        ensures SplitsAt(c, m, t1, t2)
      {
        AdvanceInTwo(c, m, m.previous, t1, t2);
      }
    } else {
      var v: DataValue, p: DataValue :| c.changed(p, p) && !c.changed(v, p);
      UnsteadyDepends(c, v, p);
    }
  }

  /** A test that is not steady: publishing in between queues a value that is not queued otherwise. */
  lemma UnsteadyDepends(c: Sampling, v: DataValue, p: DataValue)
    requires Valid(c) && c.changed(p, p) && !c.changed(v, p)
    ensures var m := ItemState(v.serverTime, [v], p, []);
            !SplitsAt(c, m, v.serverTime, v.serverTime + c.interval)
  {
    var t := v.serverTime;
    var m := ItemState(t, [v], p, []);
    var m1 := ItemState(t + c.interval, [], p, []);
    assert Due([v], t) == 1;
    assert AtInstant(c, m, p) == m1;
    assert Advance(c, m1, v, t) == m1;
    assert AdvanceTo(c, m, t) == m1;
    var u := t + c.interval;
    var m2 := m1.(ts := u + c.interval);
    assert AtInstant(c, m1, v) == m2;
    assert Advance(c, m2, v, u) == m2;
    assert Advance(c, m1, v, u) == m2;
    assert AdvanceTo(c, m, u) == m2;
    var m3 := m2.(queue := [c.stamp(p)]);
    assert AtInstant(c, m1, p) == m3;
    assert Advance(c, m3, p, u) == m3;
  }

  /** With the program's filters, sampling is independent of the publishing rate unless a deadband is unbounded. */
  lemma IndependentIffBounded(c: Sampling, f: Filter)
    requires Valid(c) && TestOf(f, c.changed)
    ensures !Unbounded(f) <==> forall m: ItemState, t1: int, t2: int | t1 <= t2 :: SplitsAt(c, m, t1, t2)
  {
    hide SplitsAt, Unbounded;
    SteadyIff(f, c.changed);
    IndependentIffSteady(c);
  }

  /** The failing input: with an unbounded deadband, zero is sampled after +Inf was queued. */
  lemma UnboundedDepends(c: Sampling, f: Filter, t: int)
    requires Valid(c) && TestOf(f, c.changed) && Unbounded(f)
    ensures var m := ItemState(t, [AtZero(t)], AtInfinity(t), []);
            !SplitsAt(c, m, t, t + c.interval)
  {
    hide IsDataChange, SplitsAt;
    UnboundedIsUnsteady(f, t);
    UnsteadyDepends(c, AtZero(t), AtInfinity(t));
  }

  // ------------------------------------------------------------------ items without a sampling interval

  /** With no interval every pre-queue value is a sample. */
  ghost function Drained(c: Sampling, m: ItemState): (r: ItemState)
    requires c.size >= 1
  {
    var kept := Kept(c.changed, m.previous, m.prequeue);
    ItemState(m.ts, [], if kept == [] then m.previous else kept[|kept| - 1],
         EnqueueAll(m.queue, c.size, c.discardOldest, Stamped(c, kept)))
  }

  /** The loop body for the first pre-queue value. */
  function DrainOne(c: Sampling, m: ItemState): (r: ItemState)
    requires c.size >= 1 && m.prequeue != []
  {
    var v, m' := m.prequeue[0], m.(prequeue := m.prequeue[1..]);
    if c.changed(v, m.previous)
    then m'.(queue := Enqueue(m.queue, c.size, c.discardOldest, c.stamp(v)), previous := v) else m'
  }

  lemma DrainedStep(c: Sampling, m: ItemState)
    requires c.size >= 1 && m.prequeue != []
    ensures Drained(c, m) == Drained(c, DrainOne(c, m))
  {
    hide EnqueueAll, Enqueue, Stamped, Kept;
    var v, rest := m.prequeue[0], m.prequeue[1..];
    assert m.prequeue == [v] + rest;
    KeptStep(c, m.previous, v, rest, m.queue);
  }

  lemma DrainedEmpty(c: Sampling, m: ItemState)
    requires c.size >= 1 && m.prequeue == []
    ensures Drained(c, m) == m
  {
    assert Stamped(c, []) == [];
  }

  /** Such an item does not depend on the publishing rate either, whatever the change test. */
  lemma {:induction false} DrainedInTwo(c: Sampling, m: ItemState, later: seq<DataValue>)
    requires c.size >= 1
    ensures var r := Drained(c, m);
            Drained(c, r.(prequeue := later)) == Drained(c, m.(prequeue := m.prequeue + later))
    decreases |m.prequeue|
  {
    hide Drained;
    var whole := m.(prequeue := m.prequeue + later);
    if m.prequeue == [] {
      DrainedEmpty(c, m);
      assert m.prequeue + later == later;
    } else {
      var m' := DrainOne(c, m);
      DrainedStep(c, m);
      DrainedStep(c, whole);
      assert whole.prequeue[1..] == m.prequeue[1..] + later;
      assert DrainOne(c, whole) == m'.(prequeue := m'.prequeue + later);
      DrainedInTwo(c, m', later);
    }
  }

  // ------------------------------------------------------------------ what sampling accepts

  /** The values that are enqueued for the instants up to `tn`, starting with `held` as the latest sample. */
  ghost function KeptFrom(c: Sampling, m: ItemState, held: DataValue, tn: int): (vs: seq<DataValue>)
    requires Valid(c)
  {
    Stamped(c, Kept(c.changed, m.previous, Samples(c, m.prequeue, held, m.ts, tn)))
  }

  /** What an item accepts when its queue is updated. */
  ghost function AcceptedIn(c: Sampling, m: ItemState, tn: int): (vs: seq<DataValue>)
    requires c.size >= 1
  {
    if c.interval > 0 then KeptFrom(c, m, m.previous, tn) else Stamped(c, Kept(c.changed, m.previous, m.prequeue))
  }

  lemma StampedStep(c: Sampling, previous: DataValue, samples: seq<DataValue>)
    requires samples != []
    ensures var v, later := samples[0], samples[1..];
            Stamped(c, Kept(c.changed, previous, samples))
            == if c.changed(v, previous) then [c.stamp(v)] + Stamped(c, Kept(c.changed, v, later))
               else Stamped(c, Kept(c.changed, previous, later))
  {
    var v, rest := samples[0], Kept(c.changed, samples[0], samples[1..]);
    if c.changed(v, previous) {
      assert Stamped(c, [v] + rest) == [c.stamp(v)] + Stamped(c, rest);
    }
  }

  lemma StampedNothing(c: Sampling, previous: DataValue)
    ensures Stamped(c, Kept(c.changed, previous, [])) == []
  {
  }

  lemma KeptFromNothing(c: Sampling, m: ItemState, held: DataValue, tn: int)
    requires Valid(c) && m.ts > tn
    ensures KeptFrom(c, m, held, tn) == []
  {
  }

  lemma KeptFromStep(c: Sampling, m: ItemState, held: DataValue, tn: int)
    requires Valid(c) && m.ts <= tn
    ensures var v := SampleAt(m.prequeue, held, m.ts);
            KeptFrom(c, m, held, tn)
            == (if c.changed(v, m.previous) then [c.stamp(v)] else []) + KeptFrom(c, AtInstant(c, m, held), v, tn)
  {
    hide Due, SampleAt, Kept, Samples, Enqueue, Stamped;
    var v := SampleAt(m.prequeue, held, m.ts);
    var later := Samples(c, m.prequeue, held, m.ts + c.interval, tn);
    UnfoldInstant(c, m.prequeue, held, m.ts, tn);
    SamplesLater(c, m.prequeue, held, m.ts, m.ts + c.interval, tn);
    StampedStep(c, m.previous, [v] + later);
    assert ([v] + later)[1..] == later;
  }

  // ------------------------------------------------------------------ the program

  datatype Mode = Disabled | SamplingMode | Reporting

  /** `DataChangeMonitoredItem`, as far as sampling and queueing go. */
  class DataChangeItem {
    const c: Sampling
    var mode: Mode
    var ts: int
    var prequeue: seq<DataValue>
    var previous: DataValue
    var queue: seq<DataValue>
    var triggered: bool

    ghost function State(): (m: ItemState)
      reads this
    {
      ItemState(ts, prequeue, previous, queue)
    }

    constructor (c: Sampling, mode: Mode, now: int, initial: DataValue)
      ensures this.c == c && this.mode == mode && !triggered && State() == ItemState(now, [], initial, [])
    {
      this.c, this.mode, ts, prequeue, previous, queue, triggered := c, mode, now, [], initial, [], false;
    }

    method Poll(v: DataValue)
      modifies this`prequeue
      ensures State() == old(State()).(prequeue := old(prequeue) + [v])
    {
      prequeue := prequeue + [v];
    }

    /** Takes the values that are due at `ts` off the pre-queue and returns the latest of them. */
    method TakeDue(held: DataValue) returns (v: DataValue)
      modifies this`prequeue
      ensures v == SampleAt(old(prequeue), held, ts)
      ensures prequeue == old(prequeue)[Due(old(prequeue), ts)..]
    {
      v := held;
      ghost var all, n := prequeue, 0;
      while |prequeue| > 0
        invariant n <= |all| && prequeue == all[n..]
        invariant Due(all, ts) == n + Due(prequeue, ts)
        invariant v == if n == 0 then held else all[n - 1]
      {
        var peek := prequeue[0];
        if peek.serverTime > ts {
          break;
        }
        v := peek;
        prequeue := prequeue[1..];
        n := n + 1;
      }
      assert Due(prequeue, ts) == 0;
    }

    /** `v` is kept when it differs from the last kept value. */
    method Keep(v: DataValue) returns (kept: seq<DataValue>)
      requires c.size >= 1
      modifies this`queue, this`previous
      ensures kept == if c.changed(v, old(previous)) then [c.stamp(v)] else []
      ensures State() == if c.changed(v, old(previous))
                         then old(State()).(queue := Enqueue(old(queue), c.size, c.discardOldest, c.stamp(v)),
                                            previous := v)
                         else old(State())
    {
      kept := [];
      if c.changed(v, previous) {
        var q, overflow := EnqueueOne(queue, c.size, c.discardOldest, c.stamp(v));
        queue := q;
        previous := v;
        kept := [c.stamp(v)];
      }
    }

    /** The nested loops for an item with a sampling interval. `kept` lists what they enqueue. */
    method SampleUpTo(tn: int) returns (kept: seq<DataValue>)
      requires Valid(c)
      modifies this`ts, this`prequeue, this`previous, this`queue
      ensures State() == AdvanceTo(c, old(State()), tn)
      ensures kept == AcceptedIn(c, old(State()), tn)
    {
      hide Due, Enqueue, Advance, KeptFrom;
      var v := previous;
      kept := [];
      while ts <= tn
        invariant AdvanceTo(c, old(State()), tn) == Advance(c, State(), v, tn)
        invariant KeptFrom(c, old(State()), old(previous), tn) == kept + KeptFrom(c, State(), v, tn)
        decreases tn - ts
      {
        ghost var m, held := State(), v;
        AdvanceOnce(c, m, held, tn);
        KeptFromStep(c, m, held, tn);
        v := TakeDue(v);
        var k := Keep(v);
        kept := kept + k;
        ts := ts + c.interval;
        assert State() == AtInstant(c, m, held);
      }
      AdvanceOnce(c, State(), v, tn);
      KeptFromNothing(c, State(), v, tn);
    }

    /** The loop for an item without one. */
    method DrainPrequeue() returns (kept: seq<DataValue>)
      requires c.size >= 1
      modifies this`prequeue, this`previous, this`queue
      ensures State() == Drained(c, old(State()))
      ensures kept == Stamped(c, Kept(c.changed, old(previous), old(prequeue)))
    {
      hide Drained, Enqueue, Kept, Stamped;
      kept := [];
      while |prequeue| > 0
        invariant ts == old(ts) && Drained(c, State()) == Drained(c, old(State()))
        invariant Stamped(c, Kept(c.changed, old(previous), old(prequeue)))
                  == kept + Stamped(c, Kept(c.changed, previous, prequeue))
      {
        ghost var m := State();
        DrainedStep(c, m);
        StampedStep(c, previous, prequeue);
        var v := prequeue[0];
        prequeue := prequeue[1..];
        var k := Keep(v);
        kept := kept + k;
        assert State() == DrainOne(c, m);
      }
      DrainedEmpty(c, State());
      StampedNothing(c, previous);
    }

    /**
     * Updates the queue and reports whether it has something to publish. `current` is the value that is read
     * when the client asked for its data to be sent again; `kept` lists what sampling enqueued.
     */
    method NotificationsAvailable(tn: int, resend: bool, current: DataValue)
      returns (available: bool, kept: seq<DataValue>)
      requires c.size >= 1
      modifies this`ts, this`prequeue, this`previous, this`queue
      ensures mode == Disabled ==> !available && kept == [] && State() == old(State()).(ts := tn)
      ensures mode != Disabled ==> State() == Resent(c, mode, resend, current, Refreshed(c, old(State()), tn))
      ensures mode != Disabled ==> kept == AcceptedIn(c, old(State()), tn)
      ensures mode != Disabled ==> (available <==> queue != [] && (mode == Reporting || triggered))
    {
      hide Drained, Advance, KeptFrom, Kept;
      if mode == Disabled {
        ts := tn;
        return false, [];
      }
      if c.interval > 0 {
        kept := SampleUpTo(tn);
      } else {
        kept := DrainPrequeue();
      }
      if resend && mode == Reporting {
        if |queue| == 0 {
          var q, overflow := EnqueueOne(queue, c.size, c.discardOldest, c.stamp(current));
          queue := q;
          previous := current;
        }
      }
      available := |queue| > 0 && (mode == Reporting || triggered);
    }

    /** Removes up to `max` notifications in order; the trigger is spent when nothing is left. */
    method Notifications(max: int) returns (taken: seq<DataValue>, more: bool)
      modifies this`queue, this`triggered
      ensures taken + queue == old(queue)
      ensures |taken| == if max <= 0 then 0 else if |old(queue)| <= max then |old(queue)| else max
      ensures (more <==> queue != []) && triggered == (old(triggered) && more)
    {
      taken, queue, more := TakeSome(queue, max);
      if triggered && !more {
        triggered := false;
      }
    }
  }

  ghost function Refreshed(c: Sampling, m: ItemState, tn: int): (r: ItemState)
    requires c.size >= 1
  {
    if c.interval > 0 then AdvanceTo(c, m, tn) else Drained(c, m)
  }

  /** A reporting item that has nothing queued queues its current value when the client asks for it again. */
  function Resent(c: Sampling, mode: Mode, resend: bool, current: DataValue, m: ItemState): (r: ItemState)
  {
    if resend && mode == Reporting && m.queue == [] then m.(queue := [c.stamp(current)], previous := current) else m
  }
}
