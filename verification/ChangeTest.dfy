/**
 * When `isDataChange` counts a value as changed, in terms of the numbers, states and times compared
 * (OPC UA Part 4, section 7.22.2), from opcua/server/datachange_monitored_item.go.
 */
module ChangeTest {
  import opened MonitoredItems

  /** The filter looks at values. */
  predicate TestsValues(f: Filter)
  {
    f.trigger == StatusValue || f.trigger == StatusValueTimestamp
  }

  /** Nothing but the values can make the difference. */
  predicate OnlyValues(f: Filter, c: DataValue, p: DataValue)
  {
    && TestsValues(f) && c.status / 0x1000 == p.status / 0x1000
    && (f.trigger == StatusValueTimestamp ==> c.sourceTime == p.sourceTime)
  }

  function Distance(i: int, j: int): (d: nat)
  {
    if i >= j then i - j else j - i
  }

  predicate Int64(i: int)
  {
    -TWO_63 <= i < TWO_63
  }

  // ------------------------------------------------------------------ state and time

  /**
   * Of the status only the upper 20 bits count, and a difference there counts for every trigger; the lower 12 bits
   * count for none.
   */
  lemma StatusChange(f: Filter, c: DataValue, p: DataValue, a: nat, x: nat, b: nat, y: nat)
    requires c.status == 0x1000 * a + x && p.status == 0x1000 * b + y && x < 0x1000 && y < 0x1000
    ensures a != b ==> IsDataChange(f, c, p)
    ensures a == b ==> IsDataChange(f, c, p) == IsDataChange(f, c.(status := p.status), p)
    ensures f.trigger == Status ==> (IsDataChange(f, c, p) <==> a != b)
  {
    hide DeepEqual, WithinAbsolute;
    assert c.status / 0x1000 == a && p.status / 0x1000 == b;
  }

  /** The source timestamp counts for the third trigger only, the server timestamp for none. */
  lemma TimeChange(f: Filter, c: DataValue, p: DataValue, t: int, u: int)
    ensures f.trigger == StatusValueTimestamp && c.sourceTime != p.sourceTime ==> IsDataChange(f, c, p)
    ensures f.trigger == StatusValue ==> IsDataChange(f, c, p) == IsDataChange(f, c.(sourceTime := t), p)
    ensures IsDataChange(f, c, p) == IsDataChange(f, c.(serverTime := u), p)
  {
    hide DeepEqual, WithinAbsolute;
  }

  /** An unknown trigger, and a value test with a percent or unknown deadband, let everything pass. */
  lemma AlwaysChange(f: Filter, c: DataValue, p: DataValue)
    requires f.trigger == UnknownTrigger || (TestsValues(f) && f.deadband != NoDeadband && f.deadband != Absolute)
    ensures IsDataChange(f, c, p)
  {
    hide DeepEqual, WithinAbsolute;
  }

  // ------------------------------------------------------------------ absolute deadband

  /** Signed numbers change by more than the deadband; a difference beyond 64 bits is taken the short way round. */
  lemma SignedChange(f: Filter, c: DataValue, p: DataValue, bits: nat, i: int, j: int, d: real)
    requires OnlyValues(f, c, p) && f.deadband == Absolute && f.limit == Finite(d) && Int64(i) && Int64(j)
    requires c.value == Signed(bits, i) && p.value == Signed(bits, j)
    ensures Int64(i - j) && Int64(j - i) ==> (IsDataChange(f, c, p) <==> Distance(i, j) as real > d)
    ensures !Int64(i - j) ==> (IsDataChange(f, c, p) <==> (TWO_64 - Distance(i, j)) as real > d)
  {
    Wrapped(i, j);
  }

  lemma Wrapped(i: int, j: int)
    requires Int64(i) && Int64(j)
    ensures SignedDifference(i, j)
            == if Int64(i - j) then i - j else if i > j then i - j - TWO_64 else i - j + TWO_64
  {
    var n := i - j + TWO_63;
    var m := if Int64(i - j) then n else if i > j then n - TWO_64 else n + TWO_64;
    assert 0 <= m < TWO_64;
    assert n % TWO_64 == m;
  }

  /** Unsigned numbers: an increase is compared with the deadband, a decrease with what it lacks to 2^64. */
  lemma UnsignedChange(f: Filter, c: DataValue, p: DataValue, bits: nat, u: nat, v: nat, d: real)
    requires OnlyValues(f, c, p) && f.deadband == Absolute && f.limit == Finite(d) && u < TWO_64 && v < TWO_64
    requires c.value == Unsigned(bits, u) && p.value == Unsigned(bits, v)
    ensures u >= v ==> (IsDataChange(f, c, p) <==> (u - v) as real > d)
    ensures u < v ==> (IsDataChange(f, c, p) <==> (TWO_64 - (v - u)) as real > d)
  {
    var m := if u >= v then u - v else u - v + TWO_64;
    assert (u - v) % TWO_64 == m;
  }

  /**
   * The deadband is meant for the distance of the two numbers (OPC UA Part 4, section 7.22.2). For unsigned ones the
   * test agrees with that exactly unless the value falls and just one of the distance and its complement is beyond
   * the deadband.
   */
  lemma UnsignedAgreesIff(f: Filter, c: DataValue, p: DataValue, bits: nat, u: nat, v: nat, d: real)
    requires OnlyValues(f, c, p) && f.deadband == Absolute && f.limit == Finite(d) && u < TWO_64 && v < TWO_64
    requires c.value == Unsigned(bits, u) && p.value == Unsigned(bits, v)
    ensures (IsDataChange(f, c, p) == (Distance(u, v) as real > d)) <==>
              u >= v || ((v - u) as real > d <==> (TWO_64 - (v - u)) as real > d)
  {
    hide IsDataChange;
    UnsignedChange(f, c, p, bits, u, v, d);
  }

  /** A fall by one, within a deadband of five, is reported; a rise by one is not. */
  lemma SmallFall(status: nat, t: int)
    ensures var f := Filter(StatusValue, Absolute, Finite(5.0));
            var nine, ten := DataValue(Unsigned(32, 9), status, t, t), DataValue(Unsigned(32, 10), status, t, t);
            IsDataChange(f, nine, ten) && !IsDataChange(f, ten, nine)
  {
    var f := Filter(StatusValue, Absolute, Finite(5.0));
    var nine, ten := DataValue(Unsigned(32, 9), status, t, t), DataValue(Unsigned(32, 10), status, t, t);
    hide IsDataChange;
    UnsignedChange(f, nine, ten, 32, 9, 10, 5.0);
    UnsignedChange(f, ten, nine, 32, 10, 9, 5.0);
  }

  /** Floating-point numbers: finite ones change by more than the deadband, all others always. */
  lemma FloatChange(f: Filter, c: DataValue, p: DataValue, bits: nat, x: Number, y: Number, d: real)
    requires OnlyValues(f, c, p) && f.deadband == Absolute && f.limit == Finite(d)
    requires c.value == Floating(bits, x) && p.value == Floating(bits, y)
    ensures IsDataChange(f, c, p) <==> !(x.Finite? && y.Finite? && -d <= x.x - y.x <= d)
  {
  }

  /** Without a finite bound: NaN and -Inf bound nothing, +Inf everything that can be subtracted. */
  lemma UnboundedChange(f: Filter, c: DataValue, p: DataValue, bits: nat, x: Number, y: Number)
    requires OnlyValues(f, c, p) && f.deadband == Absolute && !f.limit.Finite?
    requires c.value == Floating(bits, x) && p.value == Floating(bits, y)
    ensures IsDataChange(f, c, p) <==>
              f.limit != PositiveInfinity || x.NaN? || y.NaN? || (x == y && !x.Finite?)
  {
  }

  predicate SameType(c: Variant, p: Variant)
  {
    match c
    case Null => p.Null?
    case Signed(bits, _) => p.Signed? && p.bits == bits
    case Unsigned(bits, _) => p.Unsigned? && p.bits == bits
    case Floating(bits, _) => p.Floating? && p.bits == bits
    case ByteSlice(_, _, _) => p.ByteSlice?
    case Slice(elementType, _, _, _) => p.Slice? && p.elementType == elementType
    case Other(otherType, _) => p.Other? && p.otherType == otherType
  }

  /** A change of type is a change. What cannot be subtracted, like a string, always counts as changed. */
  lemma TypeChange(f: Filter, c: DataValue, p: DataValue)
    requires OnlyValues(f, c, p) && f.deadband == Absolute
    ensures !SameType(c.value, p.value) || c.value.Other? ==> IsDataChange(f, c, p)
    ensures c.value.Null? && p.value.Null? ==> !IsDataChange(f, c, p)
  {
  }

  /** Byte strings are compared by their bytes; other slices always count as changed, unless shared or both empty. */
  lemma SliceChange(f: Filter, c: DataValue, p: DataValue)
    requires OnlyValues(f, c, p) && f.deadband == Absolute
    ensures c.value.ByteSlice? && p.value.ByteSlice? && c.value.address != p.value.address ==>
              (IsDataChange(f, c, p) <==> c.value.missing != p.value.missing || c.value.bytes != p.value.bytes)
    ensures c.value.Slice? && p.value.Slice? && c.value.elements != [] && c.value.address != p.value.address ==>
              IsDataChange(f, c, p)
    ensures c.value.Slice? && p.value.Slice? && (c.value.address == p.value.address || c.value.elements == []) ==>
              (IsDataChange(f, c, p) <==>
               || c.value.elementType != p.value.elementType || c.value.missing != p.value.missing
               || |c.value.elements| != |p.value.elements|)
  {
  }

  // ------------------------------------------------------------------ no deadband

  predicate HasNaN(v: Variant)
  {
    match v
    case Floating(_, x) => x.NaN?
    case Slice(_, _, _, xs) => exists k :: 0 <= k < |xs| && HasNaN(xs[k])
    case _ => false
  }

  /** Whatever lies at one address is the same. */
  ghost predicate Coherent(c: Variant, p: Variant)
    decreases c
  {
    match (c, p)
    case (ByteSlice(_, a, x), ByteSlice(_, a', y)) => a == a' && |x| == |y| ==> x == y
    case (Slice(_, _, a, x), Slice(_, _, a', y)) =>
      |x| == |y| ==> (a == a' ==> x == y) && forall k :: 0 <= k < |x| ==> Coherent(x[k], y[k])
    case _ => true
  }

  /** The value without the addresses of its slices. */
  function Erased(v: Variant): (r: Variant)
  {
    match v
    case ByteSlice(n, _, x) => ByteSlice(n, 0, x)
    case Slice(t, n, _, xs) => Slice(t, n, 0, seq(|xs|, k requires 0 <= k < |xs| => Erased(xs[k])))
    case _ => v
  }

  lemma {:induction false} EqualIff(c: Variant, p: Variant)
    requires Coherent(c, p) && !HasNaN(c)
    ensures DeepEqual(c, p) <==> Erased(c) == Erased(p)
    decreases c
  {
    if c.Slice? && p.Slice? && |c.elements| != |p.elements| {
      assert |Erased(c).elements| == |c.elements| && |Erased(p).elements| == |p.elements|;
    } else if c.Slice? && p.Slice? {
      var xs, ys := c.elements, p.elements;
      forall k | 0 <= k < |xs|
        ensures DeepEqual(xs[k], ys[k]) <==> Erased(xs[k]) == Erased(ys[k])
      {
        assert Coherent(xs[k], ys[k]) && !HasNaN(xs[k]);
        EqualIff(xs[k], ys[k]);
      }
      ElementsErased(c, p);
    }
  }

  lemma ElementsErased(c: Variant, p: Variant)
    requires c.Slice? && p.Slice? && |c.elements| == |p.elements|
    ensures Erased(c) == Erased(p) <==>
              && c.elementType == p.elementType && c.missing == p.missing
              && forall k :: 0 <= k < |c.elements| ==> Erased(c.elements[k]) == Erased(p.elements[k])
  {
    var a, b := Erased(c), Erased(p);
    assert forall k :: 0 <= k < |c.elements| ==>
             a.elements[k] == Erased(c.elements[k]) && b.elements[k] == Erased(p.elements[k]);
  }

  /** Without a deadband a value counts as changed exactly when it differs; a NaN differs from itself. */
  lemma PlainChange(f: Filter, c: DataValue, p: DataValue)
    requires OnlyValues(f, c, p) && f.deadband == NoDeadband && Coherent(c.value, p.value)
    ensures !HasNaN(c.value) ==> (IsDataChange(f, c, p) <==> Erased(c.value) != Erased(p.value))
    ensures c.value.Floating? && c.value.f.NaN? ==> IsDataChange(f, c, p)
    ensures c.value.Signed? || c.value.Unsigned? || c.value.Other? ==> (IsDataChange(f, c, p) <==> c.value != p.value)
  {
    if !HasNaN(c.value) {
      EqualIff(c.value, p.value);
    }
  }
}
