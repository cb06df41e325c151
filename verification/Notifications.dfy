/**
 * The monitored items of a subscription and how one publishing cycle samples them and gathers their
 * notifications into a message (OPC UA Part 4, section 5.13.1), from opcua/server/subscription.go and the two
 * kinds of item. What every item accepts is kept in a ledger, so that nothing can get lost unnoticed.
 */
module Notifications {
  import opened Bytes
  import opened MonitoredItems

  datatype Kind = DataChangeKind | EventKind

  datatype Value = Data(value: DataValue) | Fields(fields: seq<string>)

  /** A queued value; `item` and `ticket` (its rank among the values the item accepted) are only history. */
  datatype Entry = Entry(item: nat, ticket: nat, value: Value)

  /** A monitored item. `log`, `discarded` and `cleared` are only history: no branch looks at them. */
  datatype Item = Item(
    kind: Kind, mode: Mode, handle: u32, size: nat, discardOldest: bool,
    queue: seq<Entry>, triggered: bool, links: set<nat>,
    log: seq<Entry>, discarded: seq<Entry>, cleared: seq<Entry>)

  function NewItem(kind: Kind, mode: Mode, handle: u32, size: nat, discardOldest: bool): (m: Item)
  {
    Item(kind, mode, handle, size, discardOldest, [], false, {}, [], [], [])
  }

  // ------------------------------------------------------------------ what happens to one item

  /** The queued values that give way to one more. */
  function Overflow(q: seq<Entry>, size: nat, discardOldest: bool): (r: seq<Entry>)
    requires size >= 1
  {
    if |q| < size then [] else if discardOldest then q[..|q| - size + 1] else q[size - 1..]
  }

  /** `enqueue` */
  function Accept(m: Item, id: nat, v: Value): (r: Item)
    requires m.size >= 1
  {
    var e := Entry(id, |m.log|, v);
    m.(queue := Enqueue(m.queue, m.size, m.discardOldest, e),
       log := m.log + [e],
       discarded := m.discarded + Overflow(m.queue, m.size, m.discardOldest))
  }

  function AcceptAll(m: Item, id: nat, vs: seq<Value>): (r: Item)
    requires m.size >= 1
    ensures r.size == m.size
    decreases |vs|
  {
    if vs == [] then m else AcceptAll(Accept(m, id, vs[0]), id, vs[1..])
  }

  /** A notification message takes the values in front, up to `rest`. */
  function Release(m: Item, rest: seq<Entry>): (r: Item)
  {
    m.(queue := rest, triggered := m.triggered && rest != [])
  }

  /** `SetMonitoringMode`: disabling an item empties its queue. */
  function SetMode(m: Item, mode: Mode): (r: Item)
  {
    if m.mode == mode then m
    else if mode == Disabled then m.(mode := mode, queue := [], cleared := m.cleared + m.queue)
    else m.(mode := mode)
  }

  /** Event items always have the largest queue. */
  function SizeOf(kind: Kind, requested: nat): (size: nat)
    ensures 1 <= size <= MAX_QUEUE_SIZE
  {
    if kind == EventKind then MAX_QUEUE_SIZE else RevisedSize(requested)
  }

  function Trimmings(q: seq<Entry>, size: nat, discardOldest: bool): (r: seq<Entry>)
  {
    if |q| <= size then [] else if discardOldest then q[..|q| - size] else q[size..]
  }

  /** `Modify` */
  function ModifyItem(m: Item, handle: u32, requested: nat, discardOldest: bool): (r: Item)
  {
    var size := SizeOf(m.kind, requested);
    m.(handle := handle, size := size, discardOldest := discardOldest,
       queue := Trim(m.queue, size, discardOldest),
       discarded := m.discarded + Trimmings(m.queue, size, discardOldest))
  }

  // ------------------------------------------------------------------ the ledger of one item

  ghost predicate Increasing(es: seq<Entry>)
  {
    forall i, j :: 0 <= i < j < |es| ==> es[i].ticket < es[j].ticket
  }

  ghost predicate Numbered(log: seq<Entry>, id: nat)
  {
    forall t :: 0 <= t < |log| ==> log[t].item == id && log[t].ticket == t
  }

  /**
   * Every value that the item accepted was delivered, is queued, was discarded by the overflow policy, or was
   * dropped when the item was disabled; it is in one of these places, once. Delivered and queued values are in
   * the order of acceptance.
   */
  ghost predicate Balanced(m: Item, id: nat, delivered: seq<Entry>)
  {
    && 1 <= m.size && |m.queue| <= m.size
    && (m.mode == Disabled ==> m.queue == [])
    && Numbered(m.log, id)
    && multiset(delivered) + multiset(m.queue) + multiset(m.discarded) + multiset(m.cleared) == multiset(m.log)
    && Increasing(delivered + m.queue)
  }

  lemma NewBalanced(kind: Kind, mode: Mode, handle: u32, size: nat, discardOldest: bool, id: nat)
    requires size >= 1
    ensures Balanced(NewItem(kind, mode, handle, size, discardOldest), id, [])
  {
  }

  /** Whatever was delivered or is queued comes from the log. */
  lemma FromLog(m: Item, id: nat, delivered: seq<Entry>, e: Entry)
    requires Balanced(m, id, delivered) && e in delivered + m.queue
    ensures e in m.log && e.item == id && e.ticket < |m.log|
  {
    assert e in multiset(delivered) + multiset(m.queue) + multiset(m.discarded) + multiset(m.cleared);
    assert e in multiset(m.log);
  }

  lemma AcceptKeeps(m: Item, id: nat, v: Value, delivered: seq<Entry>)
    requires Balanced(m, id, delivered) && m.mode != Disabled
    ensures Balanced(Accept(m, id, v), id, delivered)
  {
    hide Enqueue, Overflow, Increasing;
    var q, e, m' := m.queue, Entry(id, |m.log|, v), Accept(m, id, v);
    forall x | x in delivered + q
      ensures x.ticket < |m.log|
    {
      FromLog(m, id, delivered, x);
    }
    var over := Overflow(q, m.size, m.discardOldest);
    OverflowSplits(q, m.size, m.discardOldest, e);
    Transfer(multiset(delivered), multiset(q), multiset(m.discarded), multiset(m.cleared),
             multiset(over), multiset{e}, multiset(m'.queue));
    assert multiset(m'.discarded) == multiset(m.discarded) + multiset(over);
    EnqueueIncreasing(delivered, q, m.size, m.discardOldest, e);
  }

  /** What enters the queue is balanced by what leaves it. */
  lemma Transfer(delivered: multiset<Entry>, q: multiset<Entry>, discarded: multiset<Entry>, cleared: multiset<Entry>,
                 out: multiset<Entry>, into: multiset<Entry>, q': multiset<Entry>)
    requires out + q' == q + into
    ensures delivered + q' + (discarded + out) + cleared == delivered + q + discarded + cleared + into
  {
    forall e: Entry
      ensures (delivered + q' + (discarded + out) + cleared)[e] == (delivered + q + discarded + cleared + into)[e]
    {
      assert (out + q')[e] == (q + into)[e];
    }
  }

  lemma SplitAt(q: seq<Entry>, k: nat)
    requires k <= |q|
    ensures multiset(q) == multiset(q[..k]) + multiset(q[k..])
  {
    assert q == q[..k] + q[k..];
  }

  lemma OverflowSplits(q: seq<Entry>, size: nat, discardOldest: bool, e: Entry)
    requires 1 <= size && |q| <= size
    ensures multiset(Overflow(q, size, discardOldest)) + multiset(Enqueue(q, size, discardOldest, e))
            == multiset(q) + multiset{e}
  {
    if |q| == size {
      SplitAt(q, if discardOldest then 1 else size - 1);
    }
  }

  lemma EnqueueIncreasing(delivered: seq<Entry>, q: seq<Entry>, size: nat, discardOldest: bool, e: Entry)
    requires 1 <= size && |q| <= size && Increasing(delivered + q)
    requires forall x :: x in delivered + q ==> x.ticket < e.ticket
    ensures Increasing(delivered + Enqueue(q, size, discardOldest, e))
  {
    var all := delivered + q;
    if |q| < size {
      assert delivered + Enqueue(q, size, discardOldest, e) == all + [e];
    } else if discardOldest {
      DropIncreasing(delivered, q, 1);
      assert delivered + Enqueue(q, size, discardOldest, e) == (delivered + q[1..]) + [e];
    } else {
      assert delivered + Enqueue(q, size, discardOldest, e) == all[..|all| - 1] + [e];
    }
  }

  lemma {:induction false} AcceptAllKeeps(m: Item, id: nat, vs: seq<Value>, delivered: seq<Entry>)
    requires Balanced(m, id, delivered) && m.mode != Disabled
    ensures Balanced(AcceptAll(m, id, vs), id, delivered)
    decreases |vs|
  {
    hide Balanced;
    Sized(m, id, delivered);
    if vs != [] {
      AcceptKeeps(m, id, vs[0], delivered);
      AcceptAllKeeps(Accept(m, id, vs[0]), id, vs[1..], delivered);
    }
  }

  lemma Sized(m: Item, id: nat, delivered: seq<Entry>)
    requires Balanced(m, id, delivered)
    ensures 1 <= m.size && |m.queue| <= m.size && (m.mode == Disabled ==> m.queue == [])
  {
  }

  function Entries(id: nat, first: nat, vs: seq<Value>): (es: seq<Entry>)
    ensures |es| == |vs|
  {
    seq(|vs|, i requires 0 <= i < |vs| => Entry(id, first + i, vs[i]))
  }

  /** In closed form: the queue is left with what the policy lets survive of the old and the new values. */
  lemma {:induction false} AcceptAllSurvivors(m: Item, id: nat, vs: seq<Value>)
    requires 1 <= m.size && |m.queue| <= m.size
    ensures var m' := AcceptAll(m, id, vs);
            && m'.queue == Survivors(m.queue + Entries(id, |m.log|, vs), m.size, m.discardOldest)
            && m' == m.(queue := m'.queue, log := m.log + Entries(id, |m.log|, vs), discarded := m'.discarded)
    decreases |vs|
  {
    hide Survivors, Enqueue, Overflow, Entries;
    if vs == [] {
      FewSurvive(m.queue, m.size, m.discardOldest);
      assert m.queue + [] == m.queue && m.log + [] == m.log;
      assert Entries(id, |m.log|, vs) == [];
    } else {
      var m1 := Accept(m, id, vs[0]);
      AcceptAllSurvivors(m1, id, vs[1..]);
      EntriesStep(id, |m.log|, vs, m.log);
      EntriesStep(id, |m.log|, vs, m.queue);
      OneSurvives(m.queue, m.size, m.discardOldest, Entry(id, |m.log|, vs[0]), Entries(id, |m.log| + 1, vs[1..]));
    }
  }

  lemma EntriesStep(id: nat, first: nat, vs: seq<Value>, front: seq<Entry>)
    requires vs != []
    ensures front + Entries(id, first, vs) == front + [Entry(id, first, vs[0])] + Entries(id, first + 1, vs[1..])
  {
    var es, es1 := Entries(id, first, vs), Entries(id, first + 1, vs[1..]);
    assert es == [Entry(id, first, vs[0])] + es1;
  }

  function Values(es: seq<Entry>): (vs: seq<Value>)
    ensures |vs| == |es|
  {
    seq(|es|, i requires 0 <= i < |es| => es[i].value)
  }

  lemma EnqueueValues(q: seq<Entry>, size: nat, discardOldest: bool, e: Entry)
    requires size >= 1
    ensures Values(Enqueue(q, size, discardOldest, e)) == Enqueue(Values(q), size, discardOldest, e.value)
  {
  }

  /** The history in the entries does not matter: the values in the queue are those that the item's own queue holds. */
  lemma {:induction false} AcceptAllValues(m: Item, id: nat, vs: seq<Value>)
    requires m.size >= 1
    ensures Values(AcceptAll(m, id, vs).queue) == EnqueueAll(Values(m.queue), m.size, m.discardOldest, vs)
    decreases |vs|
  {
    hide Enqueue, Overflow, Values;
    if vs != [] {
      EnqueueValues(m.queue, m.size, m.discardOldest, Entry(id, |m.log|, vs[0]));
      AcceptAllValues(Accept(m, id, vs[0]), id, vs[1..]);
    }
  }

  lemma ReleaseKeeps(m: Item, id: nat, taken: seq<Entry>, rest: seq<Entry>, delivered: seq<Entry>)
    requires Balanced(m, id, delivered) && taken + rest == m.queue
    ensures Balanced(Release(m, rest), id, delivered + taken)
  {
    assert delivered + m.queue == (delivered + taken) + rest;
    assert multiset(m.queue) == multiset(taken) + multiset(rest);
  }

  lemma SetModeKeeps(m: Item, id: nat, mode: Mode, delivered: seq<Entry>)
    requires Balanced(m, id, delivered)
    ensures Balanced(SetMode(m, mode), id, delivered)
  {
    assert delivered + [] == (delivered + m.queue)[..|delivered|];
    assert multiset(m.cleared + m.queue) == multiset(m.cleared) + multiset(m.queue);
  }

  lemma ModifyItemKeeps(m: Item, id: nat, handle: u32, requested: nat, discardOldest: bool, delivered: seq<Entry>)
    requires Balanced(m, id, delivered)
    ensures Balanced(ModifyItem(m, handle, requested, discardOldest), id, delivered)
  {
    hide Trim, Trimmings, Increasing;
    var size := SizeOf(m.kind, requested);
    var q, gone := Trim(m.queue, size, discardOldest), Trimmings(m.queue, size, discardOldest);
    var m' := ModifyItem(m, handle, requested, discardOldest);
    TrimSplits(m.queue, size, discardOldest);
    TrimIncreasing(m.queue, size, discardOldest, delivered);
    Transfer(multiset(delivered), multiset(m.queue), multiset(m.discarded), multiset(m.cleared),
             multiset(gone), multiset{}, multiset(q));
    assert multiset(m'.discarded) == multiset(m.discarded) + multiset(gone);
  }

  lemma TrimSplits(q: seq<Entry>, size: nat, discardOldest: bool)
    ensures |Trim(q, size, discardOldest)| <= size && (q == [] ==> Trim(q, size, discardOldest) == [])
    ensures multiset(Trimmings(q, size, discardOldest)) + multiset(Trim(q, size, discardOldest)) == multiset(q)
  {
    if |q| > size {
      SplitAt(q, if discardOldest then |q| - size else size);
    }
  }

  lemma TrimIncreasing(q: seq<Entry>, size: nat, discardOldest: bool, delivered: seq<Entry>)
    requires Increasing(delivered + q)
    ensures Increasing(delivered + Trim(q, size, discardOldest))
  {
    if |q| > size {
      if discardOldest {
        DropIncreasing(delivered, q, |q| - size);
      } else {
        assert delivered + q[..size] == (delivered + q)[..|delivered| + size];
      }
    }
  }

  lemma DropIncreasing(a: seq<Entry>, b: seq<Entry>, k: nat)
    requires Increasing(a + b) && k <= |b|
    ensures Increasing(a + b[k..])
  {
    var all, fewer := a + b, a + b[k..];
    forall i, j | 0 <= i < j < |fewer|
      ensures fewer[i].ticket < fewer[j].ticket
    {
      assert fewer[i] == all[if i < |a| then i else i + k];
      assert fewer[j] == all[if j < |a| then j else j + k];
    }
  }

  // ------------------------------------------------------------------ sampling all items of a subscription

  type Items = map<nat, Item>

  /** What sampling brings to each item: the values it keeps, and the value it would be sent again. */
  datatype Samples = Samples(kept: nat -> seq<Value>, resend: bool, current: nat -> Value)

  /** What `notificationsAvailable` makes of an item, its trigger apart. Event items are not sampled. */
  function Sampled(m: Item, id: nat, c: Samples): (r: Item)
    requires m.size >= 1
  {
    if m.mode == Disabled || m.kind == EventKind then m
    else
      var m1 := AcceptAll(m, id, c.kept(id));
      if c.resend && m.mode == Reporting && m1.queue == [] then Accept(m1, id, c.current(id)) else m1
  }

  /** The item accepts something, and so triggers the items it is linked to. */
  predicate Fires(m: Item, id: nat, c: Samples)
    requires m.size >= 1
  {
    |Sampled(m, id, c).log| > |m.log|
  }

  predicate Ready(m: Item)
  {
    m.mode != Disabled && m.queue != [] && (m.mode == Reporting || m.triggered)
  }

  ghost predicate AllSized(items: Items)
  {
    forall id :: id in items ==> items[id].size >= 1
  }

  ghost predicate TriggeredBy(items: Items, sources: set<nat>, id: nat, c: Samples)
    requires AllSized(items)
  {
    exists j :: j in sources && j in items && Fires(items[j], j, c) && id in items[j].links
  }

  /**
   * All items have been sampled, in whatever order. The order shows only in `available`: an item that is
   * triggered after its turn may or may not count.
   */
  ghost predicate Refreshed(items: Items, c: Samples, items': Items, available: bool)
    requires AllSized(items)
  {
    && items'.Keys == items.Keys
    && (forall id :: id in items ==>
          && items'[id] == Sampled(items[id], id, c).(triggered := items'[id].triggered)
          && (items'[id].triggered <==> items[id].triggered || TriggeredBy(items, items.Keys, id, c)))
    && (available ==> exists id :: id in items' && Ready(items'[id]))
    && (forall id :: id in items && Ready(Sampled(items[id], id, c).(triggered := items[id].triggered)) ==> available)
  }

  function SetTriggered(items: Items, links: set<nat>): (r: Items)
    ensures r.Keys == items.Keys
    ensures forall id :: id in items ==> r[id] == items[id].(triggered := items[id].triggered || id in links)
  {
    map id | id in items :: items[id].(triggered := items[id].triggered || id in links)
  }

  /** The state of item `id` when the items in `todo` are still to come. */
  ghost predicate Turn(items: Items, c: Samples, todo: set<nat>, id: nat, m': Item)
    requires AllSized(items) && id in items
  {
    && m' == (if id in todo then items[id] else Sampled(items[id], id, c)).(triggered := m'.triggered)
    && (m'.triggered <==> items[id].triggered || TriggeredBy(items, items.Keys - todo, id, c))
  }

  ghost predicate PartlyRefreshed(items: Items, c: Samples, todo: set<nat>, items': Items)
    requires AllSized(items)
  {
    items'.Keys == items.Keys && forall id :: id in items ==> Turn(items, c, todo, id, items'[id])
  }

  function RefreshOne(items: Items, id: nat, c: Samples): (r: Items)
    requires id in items && items[id].size >= 1
  {
    var m := items[id];
    var r := items[id := Sampled(m, id, c)];
    if Fires(m, id, c) then SetTriggered(r, m.links) else r
  }

  lemma RefreshOneMore(items: Items, c: Samples, todo: set<nat>, before: Items, id: nat)
    requires AllSized(items) && PartlyRefreshed(items, c, todo, before) && id in todo && id in items
    ensures before[id].size >= 1
    ensures PartlyRefreshed(items, c, todo - {id}, RefreshOne(before, id, c))
  {
    hide AcceptAll, Accept, Sampled, Fires, TriggeredBy, Turn;
    var m, m1 := items[id], before[id];
    assert m1 == m.(triggered := m1.triggered) by {
      WaitsTurn(items, c, todo, id, m1);
    }
    SampledIgnoresTrigger(m, id, c, m1.triggered);
    var fires := Fires(m, id, c);
    assert Fires(m1, id, c) == fires && m1.links == m.links by {
      FiresIgnoresTrigger(m, id, c, m1.triggered);
    }
    var after := RefreshOne(before, id, c);
    forall k | k in items
      ensures Turn(items, c, todo - {id}, k, after[k])
    {
      OneTurn(items, c, todo, id, k, before[k]);
    }
  }

  lemma WaitsTurn(items: Items, c: Samples, todo: set<nat>, id: nat, m': Item)
    requires AllSized(items) && id in items && id in todo && Turn(items, c, todo, id, m')
    ensures m' == items[id].(triggered := m'.triggered)
  {
  }

  lemma FiresIgnoresTrigger(m: Item, id: nat, c: Samples, triggered: bool)
    requires m.size >= 1
    ensures Fires(m.(triggered := triggered), id, c) == Fires(m, id, c)
  {
    hide Sampled;
    SampledIgnoresTrigger(m, id, c, triggered);
  }

  /** What the turn of item `id` does to item `k`. */
  lemma OneTurn(items: Items, c: Samples, todo: set<nat>, id: nat, k: nat, m': Item)
    requires AllSized(items) && id in items && k in items && id in todo && Turn(items, c, todo, k, m')
    ensures var m1 := if k == id then Sampled(items[id], id, c).(triggered := m'.triggered) else m';
            Turn(items, c, todo - {id}, k,
                 m1.(triggered := m1.triggered || (Fires(items[id], id, c) && k in items[id].links)))
  {
    hide Sampled, Fires;
    var done, done' := items.Keys - todo, items.Keys - (todo - {id});
    assert done' == done + {id};
    assert TriggeredBy(items, done', k, c)
      <==> TriggeredBy(items, done, k, c) || (Fires(items[id], id, c) && k in items[id].links) by {
      if Fires(items[id], id, c) && k in items[id].links {
        assert id in done';
      }
    }
  }

  lemma SampledIgnoresTrigger(m: Item, id: nat, c: Samples, triggered: bool)
    requires m.size >= 1
    ensures Sampled(m.(triggered := triggered), id, c) == Sampled(m, id, c).(triggered := triggered)
    ensures Sampled(m, id, c).triggered == m.triggered
    ensures Sampled(m, id, c).links == m.links
  {
    AcceptAllIgnoresTrigger(m, id, c.kept(id), triggered);
  }

  lemma {:induction false} AcceptAllIgnoresTrigger(m: Item, id: nat, vs: seq<Value>, triggered: bool)
    requires m.size >= 1
    ensures AcceptAll(m.(triggered := triggered), id, vs) == AcceptAll(m, id, vs).(triggered := triggered)
    ensures var r := AcceptAll(m, id, vs); r.triggered == m.triggered && r.links == m.links && r.size == m.size
    decreases |vs|
  {
    hide Enqueue, Overflow;
    if vs != [] {
      AcceptAllIgnoresTrigger(Accept(m, id, vs[0]), id, vs[1..], triggered);
    }
  }

  /** The first loop of `publish`: Go visits the items of a map in any order. */
  method RefreshAll(items: Items, c: Samples) returns (items': Items, available: bool)
    requires AllSized(items)
    ensures Refreshed(items, c, items', available)
  {
    hide Sampled, Fires, TriggeredBy, Turn;
    items', available := items, false;
    var todo := items.Keys;
    StartRefresh(items, c);
    while todo != {}
      invariant todo <= items.Keys && PartlyRefreshed(items, c, todo, items')
      invariant available ==> exists id :: id in items' && Ready(items'[id])
      invariant forall id :: id in items && id !in todo
                             && Ready(Sampled(items[id], id, c).(triggered := items[id].triggered))
                  ==> available
      decreases |todo|
    {
      var id :| id in todo;
      RefreshOneMore(items, c, todo, items', id);
      ghost var before := items';
      items' := RefreshOne(items', id, c);
      todo := todo - {id};
      StaysReady(items, c, before, items', id);
      ReadyAtTurn(items, c, todo, id, items'[id]);
      if Ready(items'[id]) {
        available := true;
      }
    }
    EndRefresh(items, c, items', available);
  }

  lemma ReadyAtTurn(items: Items, c: Samples, todo: set<nat>, id: nat, m': Item)
    requires AllSized(items) && id in items && id !in todo && Turn(items, c, todo, id, m')
    ensures Ready(Sampled(items[id], id, c).(triggered := items[id].triggered)) ==> Ready(m')
  {
    hide Sampled, TriggeredBy;
  }

  lemma EndRefresh(items: Items, c: Samples, items': Items, available: bool)
    requires AllSized(items) && PartlyRefreshed(items, c, {}, items')
    requires available ==> exists id :: id in items' && Ready(items'[id])
    requires forall id :: id in items && Ready(Sampled(items[id], id, c).(triggered := items[id].triggered)) ==>
               available
    ensures Refreshed(items, c, items', available)
  {
    hide Sampled, TriggeredBy;
    assert items.Keys - {} == items.Keys;
  }

  lemma StartRefresh(items: Items, c: Samples)
    requires AllSized(items)
    ensures PartlyRefreshed(items, c, items.Keys, items)
  {
    hide Sampled, Fires;
  }

  lemma StaysReady(items: Items, c: Samples, before: Items, after: Items, id: nat)
    requires AllSized(items) && id in before && before[id].size >= 1 && after == RefreshOne(before, id, c)
    ensures after.Keys == before.Keys
    ensures forall k :: k in before && Ready(before[k]) ==> Ready(after[k])
  {
    hide AcceptAll, Accept;
    SampledStaysReady(before[id], id, c);
  }

  lemma SampledStaysReady(m: Item, id: nat, c: Samples)
    requires m.size >= 1
    ensures Ready(m) ==> Ready(Sampled(m, id, c))
  {
    AcceptAllIgnoresTrigger(m, id, c.kept(id), m.triggered);
    AcceptAllNonEmpty(m, id, c.kept(id));
  }

  lemma {:induction false} AcceptAllNonEmpty(m: Item, id: nat, vs: seq<Value>)
    requires m.size >= 1
    ensures var r := AcceptAll(m, id, vs); r.mode == m.mode && (m.queue != [] || vs != [] ==> r.queue != [])
    decreases |vs|
  {
    hide Enqueue, Overflow;
    if vs != [] {
      AcceptAllNonEmpty(Accept(m, id, vs[0]), id, vs[1..]);
    }
  }

  lemma SampledKeeps(m: Item, id: nat, c: Samples, triggered: bool, delivered: seq<Entry>)
    requires Balanced(m, id, delivered)
    ensures Balanced(Sampled(m, id, c).(triggered := triggered), id, delivered)
  {
    hide AcceptAll, Accept, Increasing, Numbered;
    if m.mode != Disabled {
      AcceptAllKeeps(m, id, c.kept(id), delivered);
      AcceptAllIgnoresTrigger(m, id, c.kept(id), triggered);
      AcceptAllNonEmpty(m, id, c.kept(id));
      var m1 := AcceptAll(m, id, c.kept(id));
      AcceptKeeps(m1, id, c.current(id), delivered);
    }
  }

  // ------------------------------------------------------------------ gathering notifications

  /** An entry of a notification message, under the client's handle for the item. */
  datatype Notification = Notification(handle: u32, entry: Entry)

  /** What the second loop of `publish` puts in a message, and the items it leaves. */
  datatype Batch = Batch(items: Items, changes: seq<Notification>, events: seq<Notification>, more: bool)

  /** The entries of item `id`. */
  function Of(ns: seq<Notification>, id: nat): (es: seq<Entry>)
  {
    if ns == [] then []
    else
      var last := ns[|ns| - 1].entry;
      Of(ns[..|ns| - 1], id) + if last.item == id then [last] else []
  }

  function Notes(handle: u32, es: seq<Entry>): (ns: seq<Notification>)
    ensures |ns| == |es|
  {
    seq(|es|, i requires 0 <= i < |es| => Notification(handle, es[i]))
  }

  lemma {:induction false} OfNotes(ns: seq<Notification>, handle: u32, es: seq<Entry>, id: nat, k: nat)
    requires forall e :: e in es ==> e.item == id
    ensures Of(ns + Notes(handle, es), k) == Of(ns, k) + if k == id then es else []
    decreases |es|
  {
    hide Notes;
    if es == [] {
      assert Notes(handle, es) == [];
      assert ns + [] == ns;
    } else {
      var front, last := es[..|es| - 1], es[|es| - 1];
      OfNotes(ns, handle, front, id, k);
      NotesSnoc(ns, handle, es);
      OfSnoc(ns + Notes(handle, front), Notification(handle, last), k);
      assert last in es;
      assert es == front + [last];
    }
  }

  lemma NotesSnoc(ns: seq<Notification>, handle: u32, es: seq<Entry>)
    requires es != []
    ensures ns + Notes(handle, es) == ns + Notes(handle, es[..|es| - 1]) + [Notification(handle, es[|es| - 1])]
  {
    assert Notes(handle, es) == Notes(handle, es[..|es| - 1]) + [Notification(handle, es[|es| - 1])];
  }

  lemma OfSnoc(ns: seq<Notification>, n: Notification, k: nat)
    ensures Of(ns + [n], k) == Of(ns, k) + if n.entry.item == k then [n.entry] else []
  {
    assert (ns + [n])[..|ns|] == ns;
  }

  predicate Visited(m: Item)
  {
    m.mode == Reporting || m.triggered
  }

  /** What the message takes of an item, from the front of its queue, and what it leaves. */
  ghost predicate TakenFrom(m: Item, id: nat, m': Item, changes: seq<Notification>, events: seq<Notification>)
  {
    var taken := Of(changes, id) + Of(events, id);
    if Visited(m) then taken + m'.queue == m.queue && m' == Release(m, m'.queue)
    else taken == [] && m' == m
  }

  ghost predicate Addressed(items: Items, ns: seq<Notification>, kind: Kind)
  {
    forall n :: n in ns ==>
      n.entry.item in items && n.handle == items[n.entry.item].handle && items[n.entry.item].kind == kind
  }

  /** A message of at most `max` entries has been gathered, in whatever order of the items. */
  ghost predicate Gathered(items: Items, max: nat, b: Batch)
  {
    && b.items.Keys == items.Keys
    && (forall id :: id in items ==> TakenFrom(items[id], id, b.items[id], b.changes, b.events))
    && Addressed(items, b.changes, DataChangeKind) && Addressed(items, b.events, EventKind)
    && |b.changes| + |b.events| <= max
    && (b.more <==> exists id :: id in items && Visited(items[id]) && b.items[id].queue != [])
    && (b.more ==> |b.changes| + |b.events| == max)
  }

  ghost predicate Labelled(items: Items)
  {
    forall id, e :: id in items && e in items[id].queue ==> e.item == id
  }

  /** The state of item `id` when the items in `todo` are still to come. */
  ghost predicate GatherTurn(items: Items, todo: set<nat>, b: Batch, id: nat)
    requires id in items && id in b.items
  {
    if id in todo then b.items[id] == items[id] && Of(b.changes, id) == [] && Of(b.events, id) == []
    else TakenFrom(items[id], id, b.items[id], b.changes, b.events)
  }

  ghost predicate PartlyGathered(items: Items, max: nat, todo: set<nat>, b: Batch)
  {
    && b.items.Keys == items.Keys
    && (forall id :: id in items ==> GatherTurn(items, todo, b, id))
    && Addressed(items, b.changes, DataChangeKind) && Addressed(items, b.events, EventKind)
    && |b.changes| + |b.events| <= max
    && (b.more <==> exists id :: id in items && id !in todo && Visited(items[id]) && b.items[id].queue != [])
    && (b.more ==> |b.changes| + |b.events| == max)
  }

  /** One turn of the loop that takes `taken` and leaves `rest` of item `id`. */
  function GatherOne(b: Batch, id: nat, taken: seq<Entry>, rest: seq<Entry>): (r: Batch)
    requires id in b.items
  {
    var m := b.items[id];
    var ns := Notes(m.handle, taken);
    var b' := b.(items := b.items[id := Release(m, rest)], more := b.more || rest != []);
    if m.kind == EventKind then b'.(events := b.events + ns) else b'.(changes := b.changes + ns)
  }

  lemma GatherOneMore(items: Items, max: nat, todo: set<nat>, b: Batch, id: nat, taken: seq<Entry>, rest: seq<Entry>)
    requires Labelled(items) && PartlyGathered(items, max, todo, b) && id in todo && id in items && Visited(items[id])
    requires taken + rest == items[id].queue
    requires |taken| <= max - |b.changes| - |b.events|
    requires rest != [] ==> |taken| == max - |b.changes| - |b.events|
    ensures PartlyGathered(items, max, todo - {id}, GatherOne(b, id, taken, rest))
  {
    hide Of, GatherTurn, TakenFrom, Addressed;
    var m, b' := items[id], GatherOne(b, id, taken, rest);
    WaitsItsTurn(items, todo, b, id);
    forall k | k in items
      ensures GatherTurn(items, todo - {id}, b', k)
    {
      OneGatherTurn(items, todo, b, id, taken, rest, k);
    }
    TakenLabelled(items, id, taken, rest);
    NotesAddressed(items, id, taken);
    AddressedConcat(items, b.changes, Notes(m.handle, taken), DataChangeKind);
    AddressedConcat(items, b.events, Notes(m.handle, taken), EventKind);
    assert b'.more <==> exists k :: k in items && k !in todo - {id} && Visited(items[k]) && b'.items[k].queue != [] by {
      if rest != [] {
        assert id in items && id !in todo - {id} && b'.items[id].queue != [];
      }
    }
  }

  lemma WaitsItsTurn(items: Items, todo: set<nat>, b: Batch, id: nat)
    requires id in items && id in b.items && id in todo && GatherTurn(items, todo, b, id)
    ensures b.items[id] == items[id] && Of(b.changes, id) == [] && Of(b.events, id) == []
  {
  }

  /** What the turn of item `id` does to item `k`. */
  lemma OneGatherTurn(items: Items, todo: set<nat>, b: Batch, id: nat, taken: seq<Entry>, rest: seq<Entry>, k: nat)
    requires Labelled(items) && b.items.Keys == items.Keys && id in todo && id in items && k in items
    requires GatherTurn(items, todo, b, id) && GatherTurn(items, todo, b, k)
    requires Visited(items[id]) && taken + rest == items[id].queue
    ensures GatherTurn(items, todo - {id}, GatherOne(b, id, taken, rest), k)
  {
    hide Of, Notes, Labelled;
    var m := items[id];
    TakenLabelled(items, id, taken, rest);
    OfNotes(b.events, m.handle, taken, id, k);
    OfNotes(b.changes, m.handle, taken, id, k);
    if k == id {
      assert [] + taken + [] == taken && [] + ([] + taken) == taken;
    } else {
      var es, cs := Of(b.events, k), Of(b.changes, k);
      assert es + [] == es && cs + [] == cs;
    }
  }

  lemma TakenLabelled(items: Items, id: nat, taken: seq<Entry>, rest: seq<Entry>)
    requires Labelled(items) && id in items && taken + rest == items[id].queue
    ensures forall e :: e in taken ==> e.item == id
  {
    assert forall e :: e in taken ==> e in items[id].queue;
  }

  lemma AddressedConcat(items: Items, a: seq<Notification>, b: seq<Notification>, kind: Kind)
    ensures Addressed(items, a + b, kind) <==> Addressed(items, a, kind) && Addressed(items, b, kind)
  {
    if Addressed(items, a + b, kind) {
      assert forall n :: n in a ==> n in a + b;
      assert forall n :: n in b ==> n in a + b;
    }
  }

  lemma NotesAddressed(items: Items, id: nat, taken: seq<Entry>)
    requires id in items && forall e :: e in taken ==> e.item == id
    ensures Addressed(items, Notes(items[id].handle, taken), items[id].kind)
  {
  }

  lemma SkipOne(items: Items, max: nat, todo: set<nat>, b: Batch, id: nat)
    requires PartlyGathered(items, max, todo, b) && id in todo && id in items && !Visited(items[id])
    ensures PartlyGathered(items, max, todo - {id}, b)
  {
    hide Of, Addressed;
  }

  /** The second loop of `publish`. */
  method Gather(items: Items, max: nat) returns (b: Batch)
    requires Labelled(items)
    ensures Gathered(items, max, b)
  {
    hide Of, Addressed, Labelled, GatherTurn;
    b := Batch(items, [], [], false);
    var left, todo := max, items.Keys;
    StartGather(items, max);
    while todo != {}
      invariant todo <= items.Keys && PartlyGathered(items, max, todo, b)
      invariant left == max - |b.changes| - |b.events|
      decreases |todo|
    {
      var id :| id in todo;
      var m := b.items[id];
      WaitsItsTurn(items, todo, b, id);
      if m.mode != Reporting && !m.triggered {
        SkipOne(items, max, todo, b, id);
        todo := todo - {id};
        continue;
      }
      var taken, rest, more := TakeSome(m.queue, left);
      GatherOneMore(items, max, todo, b, id, taken, rest);
      b := GatherOne(b, id, taken, rest);
      left := left - |taken|;
      todo := todo - {id};
    }
    EndGather(items, max, b);
  }

  lemma EndGather(items: Items, max: nat, b: Batch)
    requires PartlyGathered(items, max, {}, b)
    ensures Gathered(items, max, b)
  {
    hide Of, Addressed;
  }

  lemma StartGather(items: Items, max: nat)
    ensures PartlyGathered(items, max, items.Keys, Batch(items, [], [], false))
  {
  }

  /** A message is never empty when some item had something to report, and then it is full if there is more. */
  lemma NeverEmpty(items: Items, max: nat, b: Batch, id: nat)
    requires max >= 1 && id in items && Ready(items[id])
    ensures Gathered(items, max, b) ==> b.changes != [] || b.events != []
  {
    hide Of;
    OfNothing(id);
    assert Visited(items[id]);
  }

  lemma OfNothing(id: nat)
    ensures Of([], id) == []
  {
  }

  lemma GatheredKeeps(items: Items, max: nat, b: Batch, id: nat, delivered: seq<Entry>)
    requires id in items && Balanced(items[id], id, delivered)
    ensures Gathered(items, max, b) ==>
              Balanced(b.items[id], id, delivered + (Of(b.changes, id) + Of(b.events, id)))
  {
    hide Balanced, Of;
    if Gathered(items, max, b) {
      var taken := Of(b.changes, id) + Of(b.events, id);
      if Visited(items[id]) {
        ReleaseKeeps(items[id], id, taken, b.items[id].queue, delivered);
      } else {
        assert delivered + taken == delivered;
      }
    }
  }
}
