/**
 * Which poll group reads which data-change item: the scheduler keeps one group for each sampling interval, and
 * items join and leave groups when they are created, modified, switched and deleted
 * (opcua/server/scheduler.go and opcua/server/datachange_monitored_item.go).
 */
module PollGroups {
  import opened MonitoredItems

  const MAX_SAMPLING_INTERVAL := 60000.0

  /** The groups by their interval in milliseconds, each with the ids of its members. */
  type Groups = map<int, set<nat>>

  /** What is fixed for an item: the minimum of the server, and that of its node, if it has one. */
  datatype Limits = Limits(minimum: real, nodeMinimum: NodeMinimum)

  datatype NodeMinimum = NoMinimum | AtLeast(interval: real)

  datatype Item = Item(limits: Limits, interval: real, mode: Mode)

  /** `setSamplingInterval`: a negative request stands for the publishing interval that the subscription has then. */
  function Revised(l: Limits, publishing: real, requested: real): (r: real)
    ensures l.nodeMinimum.NoMinimum? && l.minimum <= MAX_SAMPLING_INTERVAL ==> l.minimum <= r <= MAX_SAMPLING_INTERVAL
    ensures l.nodeMinimum.AtLeast? ==> r >= l.nodeMinimum.interval
  {
    var r1 := if requested < 0.0 then publishing else requested;
    var r2 := if r1 < l.minimum then l.minimum else r1;
    var r3 := if r2 > MAX_SAMPLING_INTERVAL then MAX_SAMPLING_INTERVAL else r2;
    if l.nodeMinimum.AtLeast? && r3 < l.nodeMinimum.interval then l.nodeMinimum.interval else r3
  }

  /** The conversion of a float to an integer, which drops the fraction. */
  function Truncate(x: real): (r: int)
  {
    if x >= 0.0 then x.Floor else -((-x).Floor)
  }

  /** It is the nearest integer on the side of zero. */
  lemma TruncateIs(x: real)
    ensures var n := Truncate(x) as real;
            if x >= 0.0 then 0.0 <= n <= x < n + 1.0 else n - 1.0 < x <= n <= 0.0
  {
  }

  /** The group for an interval: its whole milliseconds, and at least the scheduler's minimum. */
  function GroupFor(minimum: int, interval: real): (g: int)
    ensures g >= minimum
  {
    if Truncate(interval) < minimum then minimum else Truncate(interval)
  }

  /** What a client asked for, where a negative request asks for the publishing interval. */
  function Asked(publishing: real, requested: real): (r: real)
  {
    if requested < 0.0 then publishing else requested
  }

  /** It gets that, or the end of the range that is nearest to it; the minimum of the node comes first. */
  lemma RevisedIs(l: Limits, publishing: real, requested: real)
    requires l.minimum <= MAX_SAMPLING_INTERVAL
    ensures var r, a := Revised(l, publishing, requested), Asked(publishing, requested);
            var least := if l.nodeMinimum.AtLeast? then l.nodeMinimum.interval else l.minimum;
            && (l.minimum <= a <= MAX_SAMPLING_INTERVAL && a >= least ==> r == a)
            && (a < l.minimum && l.minimum >= least ==> r == l.minimum)
            && (a > MAX_SAMPLING_INTERVAL >= least ==> r == MAX_SAMPLING_INTERVAL)
            && (least > MAX_SAMPLING_INTERVAL || (least > l.minimum && least > a) ==> r == least)
  {
  }

  /** The group of an interval is that of its whole milliseconds, unless it is shorter than the scheduler's minimum. */
  lemma GroupIs(minimum: int, interval: real)
    requires minimum >= 0
    ensures interval >= minimum as real ==>
              GroupFor(minimum, interval) as real <= interval < GroupFor(minimum, interval) as real + 1.0
    ensures interval < minimum as real ==> GroupFor(minimum, interval) == minimum
  {
  }

  function Opened(gs: Groups, g: int): (r: Groups)
  {
    if g in gs then gs else gs[g := {}]
  }

  function Joined(gs: Groups, g: int, id: nat): (r: Groups)
  {
    var r := Opened(gs, g);
    r[g := r[g] + {id}]
  }

  function Left(gs: Groups, g: int, id: nat): (r: Groups)
  {
    var r := Opened(gs, g);
    r[g := r[g] - {id}]
  }

  /** `startMonitoring` */
  function Started(minimum: int, gs: Groups, id: nat, m: Item): (r: Groups)
  {
    if m.mode == Disabled then gs else Joined(gs, GroupFor(minimum, m.interval), id)
  }

  /** `stopMonitoring` */
  function Stopped(minimum: int, gs: Groups, id: nat, m: Item): (r: Groups)
  {
    Left(gs, GroupFor(minimum, m.interval), id)
  }

  // ------------------------------------------------------------------ runs

  /** The live items by id, and the groups of the scheduler. */
  datatype State = State(items: map<nat, Item>, groups: Groups)

  datatype Action =
    | Create(id: nat, limits: Limits, publishing: real, requested: real, mode: Mode)
    | Modify(id: nat, publishing: real, requested: real)
    | SetMode(id: nat, mode: Mode)
    | Delete(id: nat)

  /** Ids come from a counter, and services find only live items. */
  predicate Allowed(s: State, a: Action)
  {
    a.Create? <==> a.id !in s.items
  }

  function Step(minimum: int, s: State, a: Action): (s': State)
    requires Allowed(s, a)
  {
    match a
    case Create(id, limits, publishing, requested, mode) =>
      var m := Item(limits, Revised(limits, publishing, requested), mode);
      State(s.items[id := m], Started(minimum, s.groups, id, m))
    case Modify(id, publishing, requested) =>
      var m := s.items[id];
      var m' := m.(interval := Revised(m.limits, publishing, requested));
      State(s.items[id := m'], Started(minimum, Stopped(minimum, s.groups, id, m), id, m'))
    case SetMode(id, mode) =>
      var m := s.items[id];
      if m.mode == mode then s
      else
        var m' := m.(mode := mode);
        State(s.items[id := m'], Started(minimum, Stopped(minimum, s.groups, id, m), id, m'))
    case Delete(id) =>
      State(s.items - {id}, Stopped(minimum, s.groups, id, s.items[id]))
  }

  ghost predicate IsRun(minimum: int, run: seq<State>)
  {
    && |run| > 0 && run[0] == State(map[], map[])
    && forall i :: 0 < i < |run| ==> Follows(minimum, run[i - 1], run[i])
  }

  ghost predicate Follows(minimum: int, s: State, s': State)
  {
    exists a :: Allowed(s, a) && s' == Step(minimum, s, a)
  }

  /** The groups in which an item is. */
  function MemberOf(gs: Groups, id: nat): (r: set<int>)
  {
    set g | g in gs && id in gs[g]
  }

  /** The groups in which it should be. */
  function Wanted(minimum: int, items: map<nat, Item>, id: nat): (r: set<int>)
    ensures |r| <= 1
  {
    if id in items && items[id].mode != Disabled then {GroupFor(minimum, items[id].interval)} else {}
  }

  ghost predicate Inv(minimum: int, s: State)
  {
    forall id: nat :: MemberOf(s.groups, id) == Wanted(minimum, s.items, id)
  }

  lemma JoinedMembers(gs: Groups, g: int, id: nat, k: nat)
    ensures MemberOf(Joined(gs, g, id), k) == MemberOf(gs, k) + if k == id then {g} else {}
  {
  }

  lemma LeftMembers(gs: Groups, g: int, id: nat, k: nat)
    ensures MemberOf(Left(gs, g, id), k) == MemberOf(gs, k) - if k == id then {g} else {}
  {
  }

  function GroupsOf(minimum: int, m: Item): (r: set<int>)
  {
    if m.mode == Disabled then {} else {GroupFor(minimum, m.interval)}
  }

  lemma StartedMembers(minimum: int, gs: Groups, id: nat, m: Item, k: nat)
    ensures k != id ==> MemberOf(Started(minimum, gs, id, m), k) == MemberOf(gs, k)
    ensures MemberOf(gs, id) == {} ==> MemberOf(Started(minimum, gs, id, m), id) == GroupsOf(minimum, m)
  {
    hide GroupFor, Joined, MemberOf;
    JoinedMembers(gs, GroupFor(minimum, m.interval), id, k);
    JoinedMembers(gs, GroupFor(minimum, m.interval), id, id);
  }

  /** Leaving the old group before joining the new one keeps an item out of all others. */
  lemma RestartedMembers(minimum: int, gs: Groups, id: nat, m: Item, m': Item, k: nat)
    requires MemberOf(gs, id) == GroupsOf(minimum, m)
    ensures MemberOf(Started(minimum, Stopped(minimum, gs, id, m), id, m'), k)
            == if k == id then GroupsOf(minimum, m') else MemberOf(gs, k)
    ensures MemberOf(Stopped(minimum, gs, id, m), k) == if k == id then {} else MemberOf(gs, k)
  {
    hide GroupFor, Joined, Left, MemberOf, Started;
    LeftMembers(gs, GroupFor(minimum, m.interval), id, k);
    LeftMembers(gs, GroupFor(minimum, m.interval), id, id);
    StartedMembers(minimum, Stopped(minimum, gs, id, m), id, m', k);
  }

  lemma WantedIs(minimum: int, items: map<nat, Item>, k: nat)
    ensures Wanted(minimum, items, k) == if k in items then GroupsOf(minimum, items[k]) else {}
  {
  }

  lemma StepMember(minimum: int, s: State, a: Action, k: nat)
    requires Allowed(s, a) && MemberOf(s.groups, k) == Wanted(minimum, s.items, k)
    requires MemberOf(s.groups, a.id) == Wanted(minimum, s.items, a.id)
    ensures var s' := Step(minimum, s, a); MemberOf(s'.groups, k) == Wanted(minimum, s'.items, k)
  {
    hide Revised, Started, Stopped, MemberOf, Wanted, GroupsOf;
    var s' := Step(minimum, s, a);
    WantedIs(minimum, s.items, k);
    WantedIs(minimum, s.items, a.id);
    WantedIs(minimum, s'.items, k);
    if a.Create? {
      StartedMembers(minimum, s.groups, a.id, s'.items[a.id], k);
    } else if a.Delete? {
      RestartedMembers(minimum, s.groups, a.id, s.items[a.id], s.items[a.id], k);
    } else {
      RestartedMembers(minimum, s.groups, a.id, s.items[a.id], s'.items[a.id], k);
    }
  }

  lemma StepKeeps(minimum: int, s: State, a: Action)
    requires Inv(minimum, s) && Allowed(s, a)
    ensures Inv(minimum, Step(minimum, s, a))
  {
    hide Step, MemberOf, Wanted;
    var s' := Step(minimum, s, a);
    forall k: nat
      ensures MemberOf(s'.groups, k) == Wanted(minimum, s'.items, k)
    {
      assert MemberOf(s.groups, k) == Wanted(minimum, s.items, k);
      assert MemberOf(s.groups, a.id) == Wanted(minimum, s.items, a.id);
      StepMember(minimum, s, a, k);
    }
  }

  /**
   * A service sets what it was asked to set of the item it names and of no other, and from then on the item is polled
   * in the group for what was asked, or in none if it is disabled.
   */
  lemma ServedIs(minimum: int, s: State, a: Action, id: nat)
    requires Inv(minimum, s) && Allowed(s, a)
    ensures var s' := Step(minimum, s, a);
            if a.id != id then
              (id in s'.items <==> id in s.items) && (id in s.items ==> s'.items[id] == s.items[id])
            else if a.Delete? then id !in s'.items
            else
              && id in s'.items
              && var m := s'.items[id];
              && m.limits == (if a.Create? then a.limits else s.items[id].limits)
              && m.mode == (if a.Modify? then s.items[id].mode else a.mode)
              && m.interval == (if a.SetMode? then s.items[id].interval
                                else Revised(m.limits, a.publishing, a.requested))
              && MemberOf(s'.groups, id) == if m.mode == Disabled then {} else {GroupFor(minimum, m.interval)}
  {
    StepKeeps(minimum, s, a);
    assert MemberOf(Step(minimum, s, a).groups, id) == Wanted(minimum, Step(minimum, s, a).items, id);
    hide Revised, GroupFor, Started, Stopped, MemberOf, Inv;
  }

  /** In every run each item that is not disabled is in exactly the group for its interval, and others in none. */
  lemma {:induction false} InItsGroupOnly(minimum: int, run: seq<State>, id: nat)
    requires IsRun(minimum, run)
    ensures var s := run[|run| - 1]; MemberOf(s.groups, id) == Wanted(minimum, s.items, id)
  {
    RunKeeps(minimum, run);
  }

  lemma {:induction false} RunKeeps(minimum: int, run: seq<State>)
    requires IsRun(minimum, run)
    ensures Inv(minimum, run[|run| - 1])
    decreases |run|
  {
    hide Step, Allowed;
    if |run| == 1 {
      forall id: nat
        ensures MemberOf(map[], id) == Wanted(minimum, map[], id)
      {
      }
    } else {
      hide Inv;
      var before := run[..|run| - 1];
      assert forall i :: 0 <= i < |before| ==> before[i] == run[i];
      RunKeeps(minimum, before);
      assert Follows(minimum, run[|run| - 1 - 1], run[|run| - 1]);
      var a :| Allowed(run[|run| - 2], a) && run[|run| - 1] == Step(minimum, run[|run| - 2], a);
      StepKeeps(minimum, run[|run| - 2], a);
    }
  }

  // ------------------------------------------------------------------ the program

  class Scheduler {
    const minimum: int
    var tickers: Groups

    constructor (minimum: int)
      ensures this.minimum == minimum && tickers == map[]
    {
      this.minimum, tickers := minimum, map[];
    }

    method GetPollGroup(interval: real) returns (g: int)
      modifies this
      ensures g == GroupFor(minimum, interval) && tickers == Opened(old(tickers), g)
    {
      g := Truncate(interval);
      if g < minimum {
        g := minimum;
      }
      if g !in tickers {
        tickers := tickers[g := {}];
      }
    }

    method Subscribe(g: int, id: nat)
      requires g in tickers
      modifies this
      ensures tickers == old(tickers)[g := old(tickers)[g] + {id}]
    {
      tickers := tickers[g := tickers[g] + {id}];
    }

    method Unsubscribe(g: int, id: nat)
      requires g in tickers
      modifies this
      ensures tickers == old(tickers)[g := old(tickers)[g] - {id}]
    {
      tickers := tickers[g := tickers[g] - {id}];
    }
  }

  class MonitoredItem {
    const id: nat
    const limits: Limits
    const scheduler: Scheduler
    var interval: real
    var mode: Mode

    ghost function Contents(): (m: Item)
      reads this
    {
      Item(limits, interval, mode)
    }

    constructor (id: nat, limits: Limits, scheduler: Scheduler, publishing: real, requested: real, mode: Mode)
      modifies scheduler
      ensures this.id == id && this.limits == limits && this.scheduler == scheduler
      ensures Contents() == Item(limits, Revised(limits, publishing, requested), mode)
      ensures scheduler.tickers == Started(scheduler.minimum, old(scheduler.tickers), id, Contents())
    {
      this.id, this.limits, this.scheduler, this.mode := id, limits, scheduler, mode;
      interval := Revised(limits, publishing, requested);
      new;
      StartMonitoring();
    }

    method StartMonitoring()
      modifies scheduler
      ensures scheduler.tickers == Started(scheduler.minimum, old(scheduler.tickers), id, Contents())
    {
      if mode == Disabled {
        return;
      }
      var g := scheduler.GetPollGroup(interval);
      scheduler.Subscribe(g, id);
    }

    method StopMonitoring()
      modifies scheduler
      ensures scheduler.tickers == Stopped(scheduler.minimum, old(scheduler.tickers), id, Contents())
    {
      var g := scheduler.GetPollGroup(interval);
      scheduler.Unsubscribe(g, id);
    }

    method ModifyItem(publishing: real, requested: real, ghost s: State)
      requires s.groups == scheduler.tickers && id in s.items && s.items[id] == Contents()
      modifies this, scheduler
      ensures var s' := Step(scheduler.minimum, s, Modify(id, publishing, requested));
              scheduler.tickers == s'.groups && Contents() == s'.items[id]
    {
      StopMonitoring();
      interval := Revised(limits, publishing, requested);
      StartMonitoring();
    }

    method SetMonitoringMode(mode: Mode, ghost s: State)
      requires s.groups == scheduler.tickers && id in s.items && s.items[id] == Contents()
      modifies this, scheduler
      ensures var s' := Step(scheduler.minimum, s, SetMode(id, mode));
              scheduler.tickers == s'.groups && Contents() == s'.items[id]
    {
      if this.mode == mode {
        return;
      }
      StopMonitoring();
      this.mode := mode;
      StartMonitoring();
    }

    method DeleteItem(ghost s: State)
      requires s.groups == scheduler.tickers && id in s.items && s.items[id] == Contents()
      modifies scheduler
      ensures scheduler.tickers == Step(scheduler.minimum, s, Delete(id)).groups
    {
      StopMonitoring();
    }
  }
}
