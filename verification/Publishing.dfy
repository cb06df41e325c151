/**
 * The publishing state machine of a subscription: keep-alive and lifetime counters, late publishing, sequence
 * numbers and the retransmission queue (OPC UA Part 4, section 5.13.1), from opcua/server/subscription.go.
 */
module Publishing {
  import opened Bytes
  import M = MonitoredItems
  import opened Notifications
  import Revision

  const MAX_RETRANSMISSIONS := 128
  const MAX_INT32: nat := 0x7FFF_FFFF

  datatype Message = Message(number: u32, changes: seq<Notification>, events: seq<Notification>)

  datatype Response = Response(available: seq<u32>, more: bool, message: Message)

  /**
   * A subscription. `nextItem` bounds the item ids given out so far. `sent` (the messages with notifications),
   * `responses`, `released` (the numbers acknowledged or republished) and `timeouts` are only history.
   */
  datatype Sub = Sub(
    live: bool, maxLifetime: nat, maxKeepAlive: nat, maxPerPublish: nat, enabled: bool,
    next: u32, items: Items, nextItem: nat, keepAlive: nat, lifetime: nat, late: bool, resend: bool, requests: nat,
    queue: seq<Message>, sent: seq<Message>, responses: seq<Response>, released: set<u32>, timeouts: seq<u32>)

  function MaxPerPublish(requested: u32): (n: nat)
    ensures n >= 1
  {
    if requested > 0 then requested else MAX_INT32
  }

  function New(p: Revision.Parameters, maxPerPublish: u32, enabled: bool): (s: Sub)
  {
    Sub(true, p.lifetime, p.keepAlive, MaxPerPublish(maxPerPublish), enabled,
        1, map[], 0, 0, 0, false, false, 0, [], [], [], {}, [])
  }

  // ------------------------------------------------------------------ what happens to a subscription

  function Numbers(q: seq<Message>): (ns: seq<u32>)
    ensures |ns| == |q|
    ensures forall i :: 0 <= i < |q| ==> ns[i] == q[i].number
  {
    seq(|q|, i requires 0 <= i < |q| => q[i].number)
  }

  /** Removing an element detaches it, so that the trimming loop ends after one. */
  function Trimmed(q: seq<Message>): (r: seq<Message>)
  {
    if |q| >= MAX_RETRANSMISSIONS then q[1..] else q
  }

  /** Where the first message numbered `n` is, or the length of the queue. */
  function Find(q: seq<Message>, n: u32): (i: nat)
    ensures i <= |q| && (i < |q| ==> q[i].number == n)
    ensures forall j :: 0 <= j < i ==> q[j].number != n
  {
    if q == [] || q[0].number == n then 0 else 1 + Find(q[1..], n)
  }

  function RemoveAt(q: seq<Message>, i: nat): (r: seq<Message>)
    requires i < |q|
    ensures |r| == |q| - 1
  {
    q[..i] + q[i + 1..]
  }

  /** A publish request is answered with the notifications gathered in `b`. */
  function Sends(s: Sub, b: Batch): (r: Sub)
  {
    var m := Message(s.next, b.changes, b.events);
    var q := Trimmed(s.queue) + [m];
    s.(items := b.items, queue := q, sent := s.sent + [m], next := Inc32(s.next),
       keepAlive := 0, lifetime := 0, requests := s.requests + 1,
       responses := s.responses + [Response(Numbers(q), b.more, m)])
  }

  /** A publish request is answered with a keep-alive, which announces but does not use the next number. */
  function KeepsAlive(s: Sub): (r: Sub)
  {
    s.(keepAlive := 0, lifetime := 0, late := false, requests := s.requests + 1,
       responses := s.responses + [Response(Numbers(s.queue), false, Message(s.next, [], []))])
  }

  function Dies(s: Sub): (r: Sub)
  {
    s.(live := false, items := map[], queue := [])
  }

  /** There is no publish request. The two branches of `publish` test for expiry in different ways. */
  function Ages(s: Sub, exactly: bool): (r: Sub)
  {
    var s' := s.(late := true, lifetime := s.lifetime + 1);
    if (if exactly then s'.lifetime == s'.maxLifetime else s'.lifetime >= s'.maxLifetime)
    then Dies(s').(timeouts := s'.timeouts + [s'.next], next := Inc32(s'.next)) else s'
  }

  /** What one run of `publish` or `handleLatePublishRequest` finds: how the items were sampled and gathered. */
  datatype Cycle = Cycle(
    kept: nat -> seq<Value>, current: nat -> Value, refreshed: Items, available: bool, batch: Batch)

  datatype Action =
    | Publish(c: Cycle, request: bool)
    | LateRequest(c: Cycle)
    | Acknowledge(number: u32)
    | Republish(number: u32)
    | Modify(p: Revision.Parameters, maxPerPublish: u32)
    | SetPublishingMode(enabled: bool)
    | ResendData
    | OnEvent(id: nat, fields: seq<string>)
    | AddItem(id: nat, item: Item)
    | DeleteItem(id: nat)
    | SetMonitoringMode(id: nat, mode: M.Mode)
    | Modifies(id: nat, handle: u32, size: u32, discardOldest: bool)
    | SetTriggering(id: nat, links: set<nat>)
    | Delete

  /** The cycle can run like this; `request` says whether there is a publish request to answer. */
  ghost predicate Possible(s: Sub, c: Cycle, resend: bool, request: bool)
  {
    && AllSized(s.items) && Refreshed(s.items, Samples(c.kept, resend, c.current), c.refreshed, c.available)
    && (c.available && s.enabled && request ==> Gathered(c.refreshed, s.maxPerPublish, c.batch))
  }

  /** What the program can do in state `s`. */
  ghost predicate Allowed(s: Sub, a: Action)
  {
    s.live ==>
      match a
      case Publish(c, request) => Possible(s, c, s.resend, request)
      case LateRequest(c) => s.late ==> Possible(s, c, false, true)
      case Modify(p, _) => Revision.Revised(p)
      case AddItem(id, m) =>
        id >= s.nextItem && m.size >= 1 && m == NewItem(m.kind, m.mode, m.handle, m.size, m.discardOldest)
      case _ => true
  }

  /** `publish` */
  function Published(s: Sub, c: Cycle, request: bool): (r: Sub)
  {
    var s1 := s.(items := c.refreshed, resend := false);
    if c.available && s.enabled then
      if request then Sends(s1, c.batch).(late := false) else Ages(s1, false)
    else
      var s2 := s1.(keepAlive := s.keepAlive + 1);
      if s2.keepAlive >= s.maxKeepAlive || s.requests == 0 then
        if request then KeepsAlive(s2) else Ages(s2, true)
      else s2
  }

  /** `handleLatePublishRequest` on a subscription that is late. */
  function LatePublished(s: Sub, c: Cycle): (r: Sub)
  {
    var s1 := s.(items := c.refreshed);
    if c.available && s.enabled then Sends(s1, c.batch).(late := c.batch.more)
    else if s.keepAlive >= s.maxKeepAlive || s.requests == 0 then KeepsAlive(s1)
    else s1
  }

  function Effect(s: Sub, a: Action): (r: Sub)
  {
    if !s.live then
      // a tick that was already on its way finds no items and no session
      if a.Publish? then s.(keepAlive := s.keepAlive + 1, resend := false) else s
    else
      match a
      case Publish(c, request) => Published(s, c, request)
      case LateRequest(c) => if s.late then LatePublished(s, c) else s
      case Acknowledge(n) => Releases(s, n)
      case Republish(n) => Releases(s, n).(lifetime := 0)
      case Modify(p, max) =>
        s.(maxLifetime := p.lifetime, maxKeepAlive := p.keepAlive, maxPerPublish := MaxPerPublish(max), lifetime := 0)
      case SetPublishingMode(enabled) => s.(enabled := enabled, lifetime := 0)
      case ResendData => s.(resend := true)
      case Delete => Dies(s)
      case _ => ItemEffect(s, a)
  }

  function Releases(s: Sub, n: u32): (r: Sub)
  {
    var i := Find(s.queue, n);
    if i < |s.queue| then s.(queue := RemoveAt(s.queue, i), released := s.released + {n}) else s
  }

  /** The services on monitored items, which all reset the lifetime, and the arrival of an event. */
  function ItemEffect(s: Sub, a: Action): (r: Sub)
  {
    match a
    case OnEvent(id, fields) =>
      if id in s.items && s.items[id].kind == EventKind && s.items[id].mode != M.Disabled && s.items[id].size >= 1
      then s.(items := SetTriggered(s.items[id := Accept(s.items[id], id, Fields(fields))], s.items[id].links)) else s
    case AddItem(id, m) => s.(items := s.items[id := m], nextItem := id + 1, lifetime := 0)
    case DeleteItem(id) => s.(items := s.items - {id}, lifetime := 0)
    case SetMonitoringMode(id, mode) =>
      if id in s.items then s.(items := s.items[id := SetMode(s.items[id], mode)], lifetime := 0) else s.(lifetime := 0)
    case Modifies(id, handle, size, discardOldest) =>
      if id in s.items
      then s.(items := s.items[id := ModifyItem(s.items[id], handle, size, discardOldest)], lifetime := 0)
      else s.(lifetime := 0)
    case SetTriggering(id, links) =>
      if id in s.items then s.(items := s.items[id := s.items[id].(links := links)], lifetime := 0)
      else s.(lifetime := 0)
    case _ => s
  }

  ghost predicate AllowedRun(s: Sub, acts: seq<Action>)
  {
    acts != [] ==> AllowedRun(s, acts[..|acts| - 1]) && Allowed(Run(s, acts[..|acts| - 1]), acts[|acts| - 1])
  }

  function Run(s: Sub, acts: seq<Action>): (r: Sub)
  {
    if acts == [] then s else Effect(Run(s, acts[..|acts| - 1]), acts[|acts| - 1])
  }

  // ------------------------------------------------------------------ what every step keeps

  /** A live subscription has not used up its lifetime, and a dead one has no items. */
  predicate Timed(s: Sub)
  {
    && 1 <= s.maxLifetime && 1 <= s.maxKeepAlive && 1 <= s.maxPerPublish
    && (s.live ==> s.lifetime < s.maxLifetime)
    && (!s.live ==> s.items == map[])
  }

  ghost predicate InOrder(q: seq<Message>)
  {
    forall i, j :: 0 <= i < j < |q| ==> q[i].number < q[j].number
  }

  /** Unless acknowledged or republished, the last 128 messages can be had again. */
  ghost predicate Kept(s: Sub)
  {
    forall k :: 0 <= k < |s.sent| ==>
      || s.sent[k] in s.queue
      || s.sent[k].number in s.released
      || k + MAX_RETRANSMISSIONS < |s.sent|
  }

  /** Messages are numbered from 1, and the queue holds some of them in order. */
  ghost predicate Numbered(s: Sub)
  {
    && (s.live ==> s.next == |s.sent| + 1)
    && (forall k :: 0 <= k < |s.sent| ==> s.sent[k].number == k + 1)
    && InOrder(s.queue) && (forall m :: m in s.queue ==> m in s.sent)
    && (s.live ==> Kept(s))
  }

  ghost predicate Queued(s: Sub)
  {
    && |s.queue| <= MAX_RETRANSMISSIONS
    && (|s.sent| < U32_LIMIT - 1 ==> Numbered(s))
  }

  function Delivered(sent: seq<Message>, id: nat): (es: seq<Entry>)
  {
    if sent == [] then []
    else
      var m := sent[|sent| - 1];
      Delivered(sent[..|sent| - 1], id) + (Of(m.changes, id) + Of(m.events, id))
  }

  /** The books of all items balance, and no item id is given out twice. */
  ghost predicate Booked(s: Sub)
  {
    && (forall id :: id in s.items ==> id < s.nextItem && Balanced(s.items[id], id, Delivered(s.sent, id)))
    && (forall id :: id >= s.nextItem ==> Delivered(s.sent, id) == [])
  }

  ghost predicate NonEmpty(sent: seq<Message>)
  {
    forall m :: m in sent ==> m.changes != [] || m.events != []
  }

  ghost predicate Inv(s: Sub)
  {
    Timed(s) && Queued(s) && Booked(s) && NonEmpty(s.sent)
  }

  // ------------------------------------------------------------------ lifetime

  lemma RevisedCounts(p: Revision.Parameters)
    requires Revision.Revised(p)
    ensures 1 <= p.keepAlive && 3 * p.keepAlive <= p.lifetime
  {
  }

  lemma ItemEffectFrame(s: Sub, a: Action)
    ensures var s' := ItemEffect(s, a);
            && s' == s.(items := s'.items, nextItem := s'.nextItem, lifetime := s'.lifetime)
            && (s'.lifetime == 0 || s'.lifetime == s.lifetime)
  {
    hide SetTriggered, Accept, SetMode, ModifyItem;
  }

  lemma PublishedTimed(s: Sub, c: Cycle, request: bool)
    requires s.live && Timed(s)
    ensures Timed(Published(s, c, request))
  {
    hide Numbers, Trimmed;
  }

  lemma LateTimed(s: Sub, c: Cycle)
    requires s.live && Timed(s)
    ensures Timed(LatePublished(s, c))
  {
    hide Numbers, Trimmed;
  }

  lemma StepTimed(s: Sub, a: Action)
    requires Timed(s) && Allowed(s, a)
    ensures Timed(Effect(s, a))
  {
    hide Published, LatePublished, Find, RemoveAt, ItemEffect, Possible, Revision.Revised;
    if s.live && a.Modify? {
      RevisedCounts(a.p);
    } else if s.live && a.Publish? {
      PublishedTimed(s, a.c, a.request);
    } else if s.live && a.LateRequest? {
      LateTimed(s, a.c);
    } else {
      ItemEffectFrame(s, a);
    }
  }

  // ------------------------------------------------------------------ sequence numbers and retransmission

  lemma SendsQueued(s: Sub, b: Batch)
    requires s.live && Queued(s)
    ensures Queued(Sends(s, b))
  {
    hide Numbers, Numbered;
    if |s.sent| + 1 < U32_LIMIT - 1 {
      SendsNumbered(s, b);
    }
  }

  lemma SendsNumbered(s: Sub, b: Batch)
    requires s.live && Numbered(s) && |s.sent| + 1 < U32_LIMIT - 1 && |s.queue| <= MAX_RETRANSMISSIONS
    ensures Numbered(Sends(s, b))
  {
    hide Numbers, InOrder, Kept, Trimmed;
    var m := Message(s.next, b.changes, b.events);
    var s' := Sends(s, b);
    TrimmedPart(s.queue);
    assert m in s'.sent && (forall x :: x in s.sent ==> x in s'.sent);
    assert InOrder(Trimmed(s.queue) + [m]) by {
      AppendInOrder(s.queue, m);
    }
    EvictedIsOld(s);
    SendsKept(s, b);
  }

  lemma TrimmedPart(q: seq<Message>)
    ensures forall x :: x in Trimmed(q) ==> x in q
    ensures forall x :: x in q ==> x in Trimmed(q) || (|q| >= MAX_RETRANSMISSIONS && x == q[0])
  {
  }

  lemma AppendInOrder(q: seq<Message>, m: Message)
    requires InOrder(q) && forall x :: x in q ==> x.number < m.number
    ensures InOrder(Trimmed(q) + [m])
  {
  }

  /** A message that has to give way is at least 128 messages old. */
  lemma EvictedIsOld(s: Sub)
    requires Numbered(s)
    ensures |s.queue| >= MAX_RETRANSMISSIONS ==> s.queue[0].number + MAX_RETRANSMISSIONS - 1 <= |s.sent|
  {
    if |s.queue| >= MAX_RETRANSMISSIONS {
      Spread(s.queue, MAX_RETRANSMISSIONS - 1);
      assert s.queue[MAX_RETRANSMISSIONS - 1] in s.sent;
    }
  }

  lemma {:induction false} Spread(q: seq<Message>, i: nat)
    requires InOrder(q) && i < |q|
    ensures q[0].number + i <= q[i].number
  {
    if i > 0 {
      Spread(q, i - 1);
    }
  }

  lemma SendsKept(s: Sub, b: Batch)
    requires s.live && Kept(s) && s.next == |s.sent| + 1
    requires forall k :: 0 <= k < |s.sent| ==> s.sent[k].number == k + 1
    requires |s.queue| >= MAX_RETRANSMISSIONS ==> s.queue[0].number + MAX_RETRANSMISSIONS - 1 <= |s.sent|
    ensures Kept(Sends(s, b))
  {
    hide Numbers, Trimmed;
    var s' := Sends(s, b);
    TrimmedPart(s.queue);
    forall k | 0 <= k < |s'.sent|
      ensures s'.sent[k] in s'.queue || s'.sent[k].number in s'.released || k + MAX_RETRANSMISSIONS < |s'.sent|
    {
      if k < |s.sent| {
        assert s'.sent[k] == s.sent[k];
      } else {
        assert s'.sent[k] == s'.queue[|s'.queue| - 1];
      }
    }
  }

  lemma RemoveAtPart(q: seq<Message>, i: nat)
    requires i < |q|
    ensures forall x :: x in RemoveAt(q, i) ==> x in q
    ensures forall x :: x in q ==> x in RemoveAt(q, i) || x == q[i]
  {
    assert q == q[..i] + [q[i]] + q[i + 1..];
  }

  lemma RemoveAtInOrder(q: seq<Message>, i: nat)
    requires InOrder(q) && i < |q|
    ensures InOrder(RemoveAt(q, i))
  {
    var r := RemoveAt(q, i);
    forall j, k | 0 <= j < k < |r|
      ensures r[j].number < r[k].number
    {
      assert r[j] == q[if j < i then j else j + 1];
      assert r[k] == q[if k < i then k else k + 1];
    }
  }

  lemma ReleasesQueued(s: Sub, n: u32)
    requires s.live && Queued(s)
    ensures Queued(Releases(s, n))
  {
    hide Find, RemoveAt, InOrder;
    var i := Find(s.queue, n);
    if i < |s.queue| {
      RemoveAtPart(s.queue, i);
      if |s.sent| < U32_LIMIT - 1 {
        RemoveAtInOrder(s.queue, i);
      }
    }
  }

  lemma SameQueue(s: Sub, s': Sub)
    requires Queued(s) && s'.queue == s.queue && s'.sent == s.sent && s'.released == s.released
    requires s'.live == s.live && s'.next == s.next
    ensures Queued(s')
  {
    hide InOrder;
  }

  lemma DeadQueue(s: Sub, s': Sub)
    requires Queued(s) && s'.sent == s.sent && !s'.live && s'.queue == []
    ensures Queued(s')
  {
  }

  lemma AgesQueued(s: Sub, exactly: bool)
    requires Queued(s)
    ensures Queued(Ages(s, exactly))
  {
    hide Queued, Ages;
    var s' := Ages(s, exactly);
    AgesUnfold(s, exactly);
    if s'.queue == [] && !s'.live {
      DeadQueue(s, s');
    } else {
      SameQueue(s, s');
    }
  }

  lemma AgesUnfold(s: Sub, exactly: bool)
    ensures var s' := Ages(s, exactly);
            && s'.sent == s.sent && s'.released == s.released && s'.nextItem == s.nextItem
            && (|| (s'.queue == s.queue && s'.items == s.items && s'.live == s.live && s'.next == s.next)
                || (!s'.live && s'.queue == [] && s'.items == map[]))
  {
  }

  lemma PublishedQueued(s: Sub, c: Cycle, request: bool)
    requires s.live && Queued(s)
    ensures Queued(Published(s, c, request))
  {
    hide Queued, Sends, Ages, Numbers;
    var s1 := s.(items := c.refreshed, resend := false);
    var s2 := s1.(keepAlive := s.keepAlive + 1);
    SameQueue(s, s1);
    SameQueue(s, s2);
    SendsQueued(s1, c.batch);
    SameQueue(Sends(s1, c.batch), Sends(s1, c.batch).(late := false));
    AgesQueued(s1, false);
    AgesQueued(s2, true);
    SameQueue(s2, KeepsAlive(s2));
  }

  lemma LateQueued(s: Sub, c: Cycle)
    requires s.live && Queued(s)
    ensures Queued(LatePublished(s, c))
  {
    hide Queued, Sends, Numbers;
    var s1 := s.(items := c.refreshed);
    SameQueue(s, s1);
    SendsQueued(s1, c.batch);
    SameQueue(Sends(s1, c.batch), Sends(s1, c.batch).(late := c.batch.more));
    SameQueue(s1, KeepsAlive(s1));
  }

  predicate Publishes(a: Action)
  {
    a.Publish? || a.LateRequest? || a.Acknowledge? || a.Republish? || a.Delete?
  }

  /** The other actions leave the queue alone. */
  lemma OtherFrame(s: Sub, a: Action)
    requires !Publishes(a)
    ensures var s' := Effect(s, a);
            && s'.queue == s.queue && s'.sent == s.sent && s'.released == s.released
            && s'.live == s.live && s'.next == s.next && s'.responses == s.responses
  {
    hide ItemEffect;
    ItemEffectFrame(s, a);
  }

  lemma StepQueued(s: Sub, a: Action)
    requires Queued(s)
    ensures Queued(Effect(s, a))
  {
    hide Queued, Published, LatePublished, Releases, ItemEffect;
    var s' := Effect(s, a);
    if !s.live {
      SameQueue(s, s');
    } else if Publishes(a) {
      match a
      case Publish(c, request) => PublishedQueued(s, c, request);
      case LateRequest(c) => LateQueued(s, c);
      case Acknowledge(n) => ReleasesQueued(s, n);
      case Republish(n) =>
        ReleasesQueued(s, n);
        SameQueue(Releases(s, n), s');
      case Delete => DeadQueue(s, s');
    } else {
      hide Effect;
      OtherFrame(s, a);
      SameQueue(s, s');
    }
  }

  // ------------------------------------------------------------------ conservation of notifications

  lemma {:induction false} OfNone(ns: seq<Notification>, id: nat)
    requires forall n :: n in ns ==> n.entry.item != id
    ensures Of(ns, id) == []
  {
    if ns != [] {
      var front := ns[..|ns| - 1];
      assert forall n :: n in front ==> n in ns;
      OfNone(front, id);
      assert ns[|ns| - 1] in ns;
    }
  }

  lemma DeliveredNext(sent: seq<Message>, m: Message, id: nat)
    ensures Delivered(sent + [m], id) == Delivered(sent, id) + (Of(m.changes, id) + Of(m.events, id))
  {
    assert (sent + [m])[..|sent|] == sent;
  }

  lemma RefreshedBooked(s: Sub, c: Cycle, resend: bool, request: bool)
    requires Booked(s) && Possible(s, c, resend, request)
    ensures Booked(s.(items := c.refreshed))
  {
    hide Balanced, Delivered, Sampled, TriggeredBy, Gathered;
    forall id | id in c.refreshed
      ensures Balanced(c.refreshed[id], id, Delivered(s.sent, id))
    {
      SampledKeeps(s.items[id], id, Samples(c.kept, resend, c.current), c.refreshed[id].triggered,
                   Delivered(s.sent, id));
    }
  }

  lemma SendsBooked(s: Sub, b: Batch)
    requires Booked(s) && Gathered(s.items, s.maxPerPublish, b)
    ensures Booked(Sends(s, b))
  {
    hide Balanced, Delivered, Numbers, TakenFrom, Trimmed;
    var m := Message(s.next, b.changes, b.events);
    forall id | id in s.items
      ensures Balanced(b.items[id], id, Delivered(s.sent + [m], id))
    {
      DeliveredNext(s.sent, m, id);
      GatheredKeeps(s.items, s.maxPerPublish, b, id, Delivered(s.sent, id));
    }
    forall id | id >= s.nextItem
      ensures Delivered(s.sent + [m], id) == []
    {
      DeliveredNext(s.sent, m, id);
      OfNone(b.changes, id);
      OfNone(b.events, id);
    }
  }

  lemma SameBooks(s: Sub, s': Sub)
    requires Booked(s) && s'.sent == s.sent && s'.nextItem == s.nextItem
    requires s'.items == s.items || s'.items == map[]
    ensures Booked(s')
  {
    hide Balanced, Delivered;
  }

  lemma PublishedBooked(s: Sub, c: Cycle, request: bool)
    requires Booked(s) && Possible(s, c, s.resend, request)
    ensures Booked(Published(s, c, request))
  {
    hide Booked, Sends, Ages, Numbers, Possible;
    RefreshedBooked(s, c, s.resend, request);
    var s0 := s.(items := c.refreshed);
    var s1 := s0.(resend := false);
    var s2 := s1.(keepAlive := s.keepAlive + 1);
    SameBooks(s0, s1);
    if c.available && s.enabled && request {
      CanGather(s, c, s.resend);
      SendsBooked(s1, c.batch);
      SameBooks(Sends(s1, c.batch), Sends(s1, c.batch).(late := false));
    }
    AgesUnfold(s1, false);
    SameBooks(s1, Ages(s1, false));
    SameBooks(s1, s2);
    AgesUnfold(s2, true);
    SameBooks(s2, Ages(s2, true));
    SameBooks(s2, KeepsAlive(s2));
  }

  lemma CanGather(s: Sub, c: Cycle, resend: bool)
    requires c.available && s.enabled
    ensures Possible(s, c, resend, true) ==>
              && Gathered(c.refreshed, s.maxPerPublish, c.batch)
              && exists id :: id in c.refreshed && Ready(c.refreshed[id])
  {
    hide Gathered, Sampled, TriggeredBy;
  }

  lemma LateBooked(s: Sub, c: Cycle)
    requires Booked(s) && Possible(s, c, false, true)
    ensures Booked(LatePublished(s, c))
  {
    hide Booked, Sends, Numbers, Possible;
    RefreshedBooked(s, c, false, true);
    var s1 := s.(items := c.refreshed);
    if c.available && s.enabled {
      CanGather(s, c, false);
      SendsBooked(s1, c.batch);
      SameBooks(Sends(s1, c.batch), Sends(s1, c.batch).(late := c.batch.more));
    }
    SameBooks(s1, KeepsAlive(s1));
  }

  /** Replacing one item by another that balances. */
  lemma ReplaceItem(s: Sub, id: nat, m: Item)
    requires Booked(s) && id in s.items && Balanced(m, id, Delivered(s.sent, id))
    ensures Booked(s.(items := s.items[id := m]))
  {
    hide Balanced, Delivered;
  }

  lemma TriggerBooked(s: Sub, links: set<nat>)
    requires Booked(s)
    ensures Booked(s.(items := SetTriggered(s.items, links)))
  {
    hide Balanced, Delivered, SetTriggered;
    forall id | id in s.items
      ensures Balanced(SetTriggered(s.items, links)[id], id, Delivered(s.sent, id))
    {
      SameBalance(s.items[id], id, SetTriggered(s.items, links)[id], Delivered(s.sent, id));
    }
  }

  lemma SameBalance(m: Item, id: nat, m': Item, delivered: seq<Entry>)
    requires Balanced(m, id, delivered) && m' == m.(triggered := m'.triggered, links := m'.links)
    ensures Balanced(m', id, delivered)
  {
    hide Increasing;
  }

  lemma AddBooked(s: Sub, id: nat, m: Item)
    requires Booked(s) && id >= s.nextItem && Balanced(m, id, [])
    ensures Booked(s.(items := s.items[id := m], nextItem := id + 1))
  {
    hide Balanced, Delivered;
  }

  lemma DeleteBooked(s: Sub, id: nat)
    requires Booked(s)
    ensures Booked(s.(items := s.items - {id}))
  {
    hide Balanced, Delivered;
  }

  lemma EventBooked(s: Sub, id: nat, v: Value)
    requires Booked(s) && id in s.items && s.items[id].mode != M.Disabled && s.items[id].size >= 1
    ensures Booked(s.(items := SetTriggered(s.items[id := Accept(s.items[id], id, v)], s.items[id].links)))
  {
    hide Balanced, Delivered, SetTriggered, Accept;
    var m := Accept(s.items[id], id, v);
    AcceptKeeps(s.items[id], id, v, Delivered(s.sent, id));
    ReplaceItem(s, id, m);
    TriggerBooked(s.(items := s.items[id := m]), s.items[id].links);
  }

  lemma BalancedIn(s: Sub, id: nat)
    requires Booked(s) && id in s.items
    ensures Balanced(s.items[id], id, Delivered(s.sent, id))
  {
  }

  lemma ItemEffectBooked(s: Sub, a: Action)
    requires s.live && Booked(s) && Allowed(s, a)
    ensures Booked(ItemEffect(s, a))
  {
    hide Booked, Balanced, Delivered, SetTriggered, Accept, SetMode, ModifyItem, Possible, Revision.Revised;
    var s' := ItemEffect(s, a);
    if a.OnEvent? {
      var id := a.id;
      if id in s.items && s.items[id].kind == EventKind && s.items[id].mode != M.Disabled && s.items[id].size >= 1 {
        EventBooked(s, id, Fields(a.fields));
      }
    } else if a.AddItem? {
      var id, m := a.id, a.item;
      NewBalanced(m.kind, m.mode, m.handle, m.size, m.discardOldest, id);
      AddBooked(s, id, m);
      SameBooks(s.(items := s.items[id := m], nextItem := id + 1), s');
    } else if a.DeleteItem? {
      DeleteBooked(s, a.id);
      SameBooks(s.(items := s.items - {a.id}), s');
    } else if (a.SetMonitoringMode? || a.Modifies? || a.SetTriggering?) && a.id in s.items {
      BalancedIn(s, a.id);
      OneItemBalanced(s, a);
      ReplaceItem(s, a.id, s'.items[a.id]);
      SameBooks(s.(items := s.items[a.id := s'.items[a.id]]), s');
    } else {
      SameBooks(s, s');
    }
  }

  lemma OneItemBalanced(s: Sub, a: Action)
    requires (a.SetMonitoringMode? || a.Modifies? || a.SetTriggering?) && a.id in s.items
    requires Balanced(s.items[a.id], a.id, Delivered(s.sent, a.id))
    ensures Balanced(ItemEffect(s, a).items[a.id], a.id, Delivered(s.sent, a.id))
  {
    hide Balanced, Delivered, SetMode, ModifyItem;
    var m, d := s.items[a.id], Delivered(s.sent, a.id);
    match a
    case SetMonitoringMode(id, mode) => SetModeKeeps(m, id, mode, d);
    case Modifies(id, handle, size, discardOldest) => ModifyItemKeeps(m, id, handle, size, discardOldest, d);
    case SetTriggering(id, links) => SameBalance(m, id, m.(links := links), d);
  }

  lemma StepBooked(s: Sub, a: Action)
    requires Booked(s) && Allowed(s, a)
    ensures Booked(Effect(s, a))
  {
    hide Booked, Published, LatePublished, Find, RemoveAt, ItemEffect, Possible, Revision.Revised;
    var s' := Effect(s, a);
    if !s.live {
      SameBooks(s, s');
    } else {
      match a
      case Publish(c, request) => PublishedBooked(s, c, request);
      case LateRequest(c) => if s.late { LateBooked(s, c); }
      case Acknowledge(n) => SameBooks(s, s');
      case Republish(n) => SameBooks(s, s');
      case Modify(p, max) => SameBooks(s, s');
      case SetPublishingMode(enabled) => SameBooks(s, s');
      case ResendData => SameBooks(s, s');
      case Delete => SameBooks(s, s');
      case _ => ItemEffectBooked(s, a);
    }
  }

  // ------------------------------------------------------------------ messages are never empty

  lemma SendsNonEmpty(s: Sub, c: Cycle, resend: bool)
    requires c.available && s.enabled && s.maxPerPublish >= 1
    ensures Possible(s, c, resend, true) ==> c.batch.changes != [] || c.batch.events != []
  {
    hide Possible, Gathered, Ready;
    if Possible(s, c, resend, true) {
      CanGather(s, c, resend);
      var id :| id in c.refreshed && Ready(c.refreshed[id]);
      NeverEmpty(c.refreshed, s.maxPerPublish, c.batch, id);
    }
  }

  /** A step sends no message, or one that holds something. */
  lemma SentStep(s: Sub, a: Action)
    requires Timed(s) && Allowed(s, a)
    ensures var s' := Effect(s, a);
            s'.sent == s.sent
            || (exists m: Message :: s'.sent == s.sent + [m] && (m.changes != [] || m.events != []))
  {
    hide Numbers, Trimmed, Find, RemoveAt, ItemEffect, Possible, Revision.Revised;
    ItemEffectFrame(s, a);
    if s.live && s.enabled {
      if a.Publish? && a.c.available && a.request {
        SendsNonEmpty(s, a.c, s.resend);
      } else if a.LateRequest? && s.late && a.c.available {
        SendsNonEmpty(s, a.c, false);
      }
    }
  }

  // ------------------------------------------------------------------ every run

  lemma StepKeeps(s: Sub, a: Action)
    requires Inv(s) && Allowed(s, a)
    ensures Inv(Effect(s, a))
  {
    hide Timed, Queued, Booked, Allowed, Effect;
    StepTimed(s, a);
    StepQueued(s, a);
    StepBooked(s, a);
    SentStep(s, a);
  }

  lemma {:induction false} RunKeeps(p: Revision.Parameters, maxPerPublish: u32, enabled: bool, acts: seq<Action>)
    requires Revision.Revised(p) && AllowedRun(New(p, maxPerPublish, enabled), acts)
    ensures Inv(Run(New(p, maxPerPublish, enabled), acts))
    decreases |acts|
  {
    hide Revision.Revised, Allowed, Effect, Timed, Queued, Booked;
    var s := New(p, maxPerPublish, enabled);
    if acts == [] {
      StartsWell(p, maxPerPublish, enabled);
    } else {
      RunKeeps(p, maxPerPublish, enabled, acts[..|acts| - 1]);
      StepKeeps(Run(s, acts[..|acts| - 1]), acts[|acts| - 1]);
    }
  }

  lemma StartsWell(p: Revision.Parameters, maxPerPublish: u32, enabled: bool)
    requires Revision.Revised(p)
    ensures Inv(New(p, maxPerPublish, enabled))
  {
    hide Revision.Revised;
    RevisedCounts(p);
  }

  /** The whole-run result on conservation: each accepted value is in exactly one place, once. */
  lemma EachValueOnce(p: Revision.Parameters, maxPerPublish: u32, enabled: bool, acts: seq<Action>, id: nat, t: nat)
    requires Revision.Revised(p) && AllowedRun(New(p, maxPerPublish, enabled), acts)
    ensures var s := Run(New(p, maxPerPublish, enabled), acts);
            id in s.items && t < |s.items[id].log| ==>
              var m, d := s.items[id], Delivered(s.sent, id);
              var e := m.log[t];
              && e.ticket == t && Increasing(d + m.queue)
              && multiset(d)[e] + multiset(m.queue)[e] + multiset(m.discarded)[e] + multiset(m.cleared)[e] == 1
  {
    hide Revision.Revised, Run, AllowedRun, Allowed, Timed, Queued, Delivered;
    RunKeeps(p, maxPerPublish, enabled, acts);
    var s := Run(New(p, maxPerPublish, enabled), acts);
    if id in s.items && t < |s.items[id].log| {
      InOnePlace(s.items[id], id, Delivered(s.sent, id), t);
    }
  }

  lemma InOnePlace(m: Item, id: nat, d: seq<Entry>, t: nat)
    requires Balanced(m, id, d) && t < |m.log|
    ensures var e := m.log[t];
            multiset(d)[e] + multiset(m.queue)[e] + multiset(m.discarded)[e] + multiset(m.cleared)[e] == 1
  {
    hide Increasing;
    var e := m.log[t];
    assert (multiset(d) + multiset(m.queue) + multiset(m.discarded) + multiset(m.cleared))[e] == multiset(m.log)[e];
    OnceInLog(m.log, id, t);
  }

  lemma OnceInLog(log: seq<Entry>, id: nat, t: nat)
    requires Notifications.Numbered(log, id) && t < |log|
    ensures multiset(log)[log[t]] == 1
  {
    var a, b := log[..t], log[t + 1..];
    assert log == a + [log[t]] + b;
    assert log[t] !in a && log[t] !in b;
  }

  /**
   * From `m` to `m'`, while the deliveries grow from `d` to `d'`: what the policy lets survive of the old and the
   * newly accepted values has been delivered, in order, or is still queued.
   */
  ghost predicate Conserves(m: Item, m': Item, d: seq<Entry>, d': seq<Entry>)
  {
    && m.size >= 1 && |m.log| <= |m'.log| && m'.log[..|m.log|] == m.log && |d| <= |d'| && d'[..|d|] == d
    && M.Survivors(m.queue + m'.log[|m.log|..], m.size, m.discardOldest) == d'[|d|..] + m'.queue
  }

  lemma SampledConserves(m: Item, id: nat, c: Samples, triggered: bool, d: seq<Entry>)
    requires 1 <= m.size && |m.queue| <= m.size
    ensures Conserves(m, Sampled(m, id, c).(triggered := triggered), d, d)
  {
    hide AcceptAll, M.Survivors, M.Enqueue, Overflow, Entries;
    var m', kept := Sampled(m, id, c), c.kept(id);
    assert d[..|d|] == d && d[|d|..] == [];
    if m.mode == M.Disabled || m.kind == EventKind {
      assert m.log[..|m.log|] == m.log && m.log[|m.log|..] == [];
      assert m.queue + [] == m.queue;
      M.FewSurvive(m.queue, m.size, m.discardOldest);
      assert [] + m.queue == m.queue;
    } else {
      var m1, new1 := AcceptAll(m, id, kept), Entries(id, |m.log|, kept);
      AcceptAllSurvivors(m, id, kept);
      assert m1.log[..|m.log|] == m.log && m1.log[|m.log|..] == new1;
      assert [] + m1.queue == m1.queue;
      if c.resend && m.mode == M.Reporting && m1.queue == [] {
        AcceptAllNonEmpty(m, id, kept);
        var e := Entry(id, |m1.log|, c.current(id));
        assert m'.log[|m.log|..] == [e] && m'.log[..|m.log|] == m.log;
        assert m.queue + [e] == [e];
        M.FewSurvive([e], m.size, m.discardOldest);
        EnqueueFirst(e, m.size, m.discardOldest);
        assert [] + [e] == [e];
      }
    }
  }

  lemma EnqueueFirst(e: Entry, size: nat, discardOldest: bool)
    requires size >= 1
    ensures M.Enqueue([], size, discardOldest, e) == [e]
  {
  }

  lemma ReleaseConserves(m: Item, m1: Item, rest: seq<Entry>, taken: seq<Entry>, d: seq<Entry>)
    requires Conserves(m, m1, d, d) && m1.queue == taken + rest
    ensures Conserves(m, Release(m1, rest), d, d + taken)
  {
    hide M.Survivors;
    assert (d + taken)[..|d|] == d && (d + taken)[|d|..] == taken;
    assert d[|d|..] + m1.queue == m1.queue;
  }

  lemma GatheredConserves(m: Item, items: Items, max: nat, b: Batch, id: nat, d: seq<Entry>)
    requires id in items && Conserves(m, items[id], d, d)
    ensures Gathered(items, max, b) ==> Conserves(m, b.items[id], d, d + (Of(b.changes, id) + Of(b.events, id)))
  {
    hide Conserves, Of, Addressed;
    if Gathered(items, max, b) {
      var taken := Of(b.changes, id) + Of(b.events, id);
      if Visited(items[id]) {
        ReleaseConserves(m, items[id], b.items[id].queue, taken, d);
      } else {
        assert d + taken == d;
      }
    }
  }

  /** What a cycle of a live subscription does to its items: they are refreshed, and gathered if a message is sent. */
  lemma CycleItems(s: Sub, a: Action)
    requires s.live && Allowed(s, a) && Effect(s, a).live
    requires a.Publish? || (a.LateRequest? && s.late)
    ensures var s' := Effect(s, a);
            || (s'.items == a.c.refreshed && s'.sent == s.sent)
            || (&& a.c.available && s.enabled && (a.Publish? ==> a.request) && s'.items == a.c.batch.items
                && s'.sent == s.sent + [Message(s.next, a.c.batch.changes, a.c.batch.events)])
  {
    hide Numbers, Trimmed, Possible;
  }

  lemma CycleConserves(s: Sub, a: Action, id: nat)
    requires Inv(s) && s.live && id in s.items && (a.Publish? || (a.LateRequest? && s.late))
    ensures var s' := Effect(s, a);
            Allowed(s, a) && s'.live ==>
              id in s'.items && Conserves(s.items[id], s'.items[id], Delivered(s.sent, id), Delivered(s'.sent, id))
  {
    hide Effect, Conserves, Timed, Queued, Balanced, Delivered, Gathered, Sampled, TriggeredBy;
    if Allowed(s, a) && Effect(s, a).live {
      var c, resend, d := a.c, a.Publish? && s.resend, Delivered(s.sent, id);
      CycleItems(s, a);
      var request := a.Publish? ==> a.request;
      assert Possible(s, c, resend, request);
      Sized(s.items[id], id, d);
      SampledConserves(s.items[id], id, Samples(c.kept, resend, c.current), c.refreshed[id].triggered, d);
      if c.available && s.enabled && request {
        hide Possible;
        CanGather(s, c, resend);
        GatheredKeys(c.refreshed, s.maxPerPublish, c.batch);
        GatheredConserves(s.items[id], c.refreshed, s.maxPerPublish, c.batch, id, d);
        DeliveredNext(s.sent, Message(s.next, c.batch.changes, c.batch.events), id);
      }
    }
  }

  lemma GatheredKeys(items: Items, max: nat, b: Batch)
    requires Gathered(items, max, b)
    ensures b.items.Keys == items.Keys
  {
  }

  // ------------------------------------------------------------------ responses

  /** What a response says is what the subscription then holds. */
  ghost predicate Truthful(s: Sub, c: Cycle, s': Sub, r: Response)
  {
    && r.available == Numbers(s'.queue) && r.message.number == s.next
    && if r.message.changes == [] && r.message.events == [] then
         !r.more && s'.sent == s.sent && s'.queue == s.queue && s'.next == s.next
       else
         && s'.sent == s.sent + [r.message] && s'.queue == Trimmed(s.queue) + [r.message] && s'.next == Inc32(s.next)
         && s'.items.Keys == c.refreshed.Keys
         && Addressed(c.refreshed, r.message.changes, DataChangeKind)
         && Addressed(c.refreshed, r.message.events, EventKind)
         && |r.message.changes| + |r.message.events| <= s.maxPerPublish
         && (r.more ==> |r.message.changes| + |r.message.events| == s.maxPerPublish)
         && (r.more <==> exists id :: id in c.refreshed && Visited(c.refreshed[id]) && s'.items[id].queue != [])
  }

  /** One truthful response was written, and both counters were reset. */
  ghost predicate Answered(s: Sub, c: Cycle, s': Sub)
  {
    && s'.live && s'.lifetime == 0 && s'.keepAlive == 0
    && |s'.responses| == |s.responses| + 1 && s'.responses[..|s.responses|] == s.responses
    && Truthful(s, c, s', s'.responses[|s.responses|])
  }

  lemma DataAnswered(s: Sub, c: Cycle, resend: bool, s1: Sub, late: bool)
    requires s.live && s.maxPerPublish >= 1 && c.available && s.enabled
    requires s1 == s.(items := c.refreshed, resend := s1.resend)
    ensures Possible(s, c, resend, true) ==> Answered(s, c, Sends(s1, c.batch).(late := late))
  {
    hide Numbers, Trimmed, TakenFrom, Addressed, Possible;
    SendsNonEmpty(s, c, resend);
    CanGather(s, c, resend);
  }

  lemma KeepAliveAnswered(s: Sub, c: Cycle, s1: Sub)
    requires s.live && s1.live && s1.queue == s.queue && s1.sent == s.sent && s1.next == s.next
    requires s1.responses == s.responses
    ensures Answered(s, c, KeepsAlive(s1))
  {
    hide Numbers;
  }

  lemma AgesSilently(s: Sub, exactly: bool)
    ensures Ages(s, exactly).responses == s.responses
  {
  }

  lemma PublishedAnswers(s: Sub, c: Cycle, request: bool)
    requires s.live && s.maxPerPublish >= 1 && Possible(s, c, s.resend, request)
    ensures var s' := Published(s, c, request);
            s'.responses == s.responses || (request && Answered(s, c, s') && !s'.late)
  {
    hide Sends, Ages, Answered, Possible, Numbers;
    var s1 := s.(items := c.refreshed, resend := false);
    var s2 := s1.(keepAlive := s.keepAlive + 1);
    AgesSilently(s1, false);
    AgesSilently(s2, true);
    KeepAliveAnswered(s, c, s2);
    if c.available && s.enabled && request {
      DataAnswered(s, c, s.resend, s1, false);
    }
  }

  lemma LateAnswers(s: Sub, c: Cycle)
    requires s.live && s.maxPerPublish >= 1 && Possible(s, c, false, true)
    ensures var s' := LatePublished(s, c);
            s'.responses == s.responses || (Answered(s, c, s') && s'.late == s'.responses[|s.responses|].more)
  {
    hide Answered, Possible, Numbers, Trimmed;
    var s1 := s.(items := c.refreshed);
    KeepAliveAnswered(s, c, s1);
    if c.available && s.enabled {
      DataAnswered(s, c, false, s1, c.batch.more);
    }
  }

  /**
   * Only a publish request is answered, every answer is truthful, and a subscription stays late after an answer
   * only if it was late before and has announced more.
   */
  lemma ResponseStep(s: Sub, a: Action)
    requires Inv(s) && Allowed(s, a)
    ensures var s' := Effect(s, a);
            || s'.responses == s.responses
            || (&& ((a.Publish? && a.request) || (a.LateRequest? && s.late)) && s.live && Answered(s, a.c, s')
                && s'.late == (a.LateRequest? && s'.responses[|s.responses|].more))
  {
    hide Truthful, Queued, Booked, Possible, Published, LatePublished, ItemEffect, Find, RemoveAt, Revision.Revised;
    if s.live && a.Publish? {
      PublishedAnswers(s, a.c, a.request);
    } else if s.live && a.LateRequest? && s.late {
      LateAnswers(s, a.c);
    } else {
      ItemEffectFrame(s, a);
    }
  }

  lemma RespondsOnce(s: Sub, a: Action)
    requires Inv(s) && Allowed(s, a)
    ensures |s.responses| <= |Effect(s, a).responses| <= |s.responses| + 1
  {
    hide Inv, Allowed, Effect, Truthful;
    ResponseStep(s, a);
  }

  // ------------------------------------------------------------------ what leaves the retransmission queue

  /** A message leaves the queue exactly when it is acknowledged, republished, or the oldest of 128 when one is sent. */
  lemma DroppedIff(s: Sub, a: Action, m: Message)
    requires Inv(s) && |s.sent| < U32_LIMIT - 1 && s.live && Effect(s, a).live && m in s.queue
    ensures var s' := Effect(s, a);
            m !in s'.queue <==>
              || a == Acknowledge(m.number) || a == Republish(m.number)
              || (|s'.sent| > |s.sent| && |s.queue| == MAX_RETRANSMISSIONS && m == s.queue[0])
  {
    hide Timed, Booked, Numbers, InOrder, Published, LatePublished, ItemEffect, Releases, Trimmed;
    var i :| 0 <= i < |s.queue| && m == s.queue[i];
    if a.Publish? {
      PublishedSends(s, a.c, a.request);
      TrimmedDrops(s.queue, i, Message(s.next, a.c.batch.changes, a.c.batch.events));
    } else if a.LateRequest? {
      LateSends(s, a.c);
      TrimmedDrops(s.queue, i, Message(s.next, a.c.batch.changes, a.c.batch.events));
    } else if a.Acknowledge? || a.Republish? {
      ReleasesDrops(s, a.number, i);
    } else {
      ItemEffectFrame(s, a);
    }
  }

  lemma PublishedSends(s: Sub, c: Cycle, request: bool)
    requires Published(s, c, request).live
    ensures var s' := Published(s, c, request);
            || (s'.queue == s.queue && s'.sent == s.sent)
            || (&& s'.queue == Trimmed(s.queue) + [Message(s.next, c.batch.changes, c.batch.events)]
                && |s'.sent| == |s.sent| + 1)
  {
    hide Numbers, Trimmed;
  }

  lemma LateSends(s: Sub, c: Cycle)
    ensures var s' := LatePublished(s, c);
            || (s'.queue == s.queue && s'.sent == s.sent)
            || (&& s'.queue == Trimmed(s.queue) + [Message(s.next, c.batch.changes, c.batch.events)]
                && |s'.sent| == |s.sent| + 1)
  {
    hide Numbers, Trimmed;
  }

  lemma TrimmedDrops(q: seq<Message>, i: nat, m: Message)
    requires InOrder(q) && i < |q| && q[i].number < m.number
    ensures q[i] !in Trimmed(q) + [m] <==> |q| >= MAX_RETRANSMISSIONS && i == 0
    ensures i != 0 ==> q[i] != q[0]
  {
    if |q| >= MAX_RETRANSMISSIONS && i > 0 {
      assert (Trimmed(q) + [m])[i - 1] == q[i];
    } else if i > 0 || |q| < MAX_RETRANSMISSIONS {
      assert (Trimmed(q) + [m])[i] == q[i];
    }
  }

  lemma ReleasesDrops(s: Sub, n: u32, i: nat)
    requires InOrder(s.queue) && i < |s.queue|
    ensures var s' := Releases(s, n);
            && s'.sent == s.sent && (s.queue[i] !in s'.queue <==> s.queue[i].number == n)
  {
    hide Find;
    var q, j := s.queue, Find(s.queue, n);
    if j < |q| {
      if i < j {
        assert RemoveAt(q, j)[i] == q[i];
      } else if i > j {
        assert RemoveAt(q, j)[i - 1] == q[i];
      }
    }
  }

  /** At any time the last 128 messages can be had again, unless they were acknowledged or republished. */
  lemma StillAvailable(p: Revision.Parameters, maxPerPublish: u32, enabled: bool, acts: seq<Action>, k: nat)
    requires Revision.Revised(p) && AllowedRun(New(p, maxPerPublish, enabled), acts)
    ensures var s := Run(New(p, maxPerPublish, enabled), acts);
            s.live && |s.sent| < U32_LIMIT - 1 && k < |s.sent| <= k + MAX_RETRANSMISSIONS && k + 1 !in s.released ==>
              s.sent[k] in s.queue && s.sent[k].number == k + 1
  {
    hide Revision.Revised, Run, AllowedRun, Timed, Booked;
    RunKeeps(p, maxPerPublish, enabled, acts);
  }

  // ------------------------------------------------------------------ expiry

  /** In a live subscription the two expiry tests agree, and the periodic sweep finds nothing to delete. */
  lemma ExpiryTestsAgree(p: Revision.Parameters, maxPerPublish: u32, enabled: bool, acts: seq<Action>)
    requires Revision.Revised(p) && AllowedRun(New(p, maxPerPublish, enabled), acts)
    ensures var s := Run(New(p, maxPerPublish, enabled), acts);
            s.live ==> Ages(s, true) == Ages(s, false) && s.lifetime < s.maxLifetime
  {
    hide Revision.Revised, Run, AllowedRun, Queued, Booked;
    RunKeeps(p, maxPerPublish, enabled, acts);
  }

  /** No publish request is available, and no service resets the lifetime. */
  predicate Idle(a: Action)
  {
    (a.Publish? && !a.request) || a.Acknowledge? || a.OnEvent? || a.ResendData?
  }

  function Ticks(acts: seq<Action>): (n: nat)
  {
    if acts == [] then 0 else Ticks(acts[..|acts| - 1]) + if acts[|acts| - 1].Publish? then 1 else 0
  }

  /** The ticks without notifications that may pass before each tick counts. */
  function Slack(s: Sub): (n: nat)
    ensures s.maxKeepAlive >= 1 ==> n <= s.maxKeepAlive - 1
  {
    if s.requests == 0 || s.keepAlive + 1 >= s.maxKeepAlive then 0 else s.maxKeepAlive - 1 - s.keepAlive
  }

  /** Every idle tick counts against the lifetime or uses up slack. */
  lemma IdleStep(s: Sub, a: Action)
    requires Timed(s) && Idle(a)
    ensures var s', t := Effect(s, a), if a.Publish? then 1 else 0;
            && s'.maxLifetime == s.maxLifetime && s'.lifetime <= s.lifetime + t
            && (s'.live ==> s.live && s'.lifetime - Slack(s') == s.lifetime - Slack(s) + t)
            && (s.live && !s'.live ==> s'.lifetime >= s'.maxLifetime && s'.timeouts == s.timeouts + [s.next])
            && (s.live == s'.live ==> s'.timeouts == s.timeouts)
            && (!s.live ==> s'.lifetime == s.lifetime)
  {
    hide Find, RemoveAt, SetTriggered, Accept, Numbers, Trimmed;
  }

  lemma {:induction false} IdleRun(s: Sub, acts: seq<Action>)
    requires Timed(s) && s.live && AllowedRun(s, acts) && forall i :: 0 <= i < |acts| ==> Idle(acts[i])
    ensures var s', n := Run(s, acts), Ticks(acts);
            && Timed(s') && s'.maxLifetime == s.maxLifetime && s'.lifetime <= s.lifetime + n
            && (s'.live ==> s'.lifetime - Slack(s') == s.lifetime - Slack(s) + n)
            && (!s'.live ==> s'.lifetime >= s'.maxLifetime)
    decreases |acts|
  {
    hide Effect, Allowed, Slack;
    if acts != [] {
      var front, a := acts[..|acts| - 1], acts[|acts| - 1];
      IdleRun(s, front);
      IdleStep(Run(s, front), a);
      StepTimed(Run(s, front), a);
    }
  }

  /**
   * With no publish request and no reset, a subscription lives for at least the remaining lifetime and dies
   * within the slack after it; so after a reset it expires between maxLifetime and
   * maxLifetime + maxKeepAlive - 1 ticks.
   */
  lemma ExpiryWindow(s: Sub, acts: seq<Action>)
    requires Timed(s) && s.live && AllowedRun(s, acts) && forall i :: 0 <= i < |acts| ==> Idle(acts[i])
    ensures var s', n := Run(s, acts), Ticks(acts);
            && (n < s.maxLifetime - s.lifetime ==> s'.live)
            && (n >= s.maxLifetime - s.lifetime + Slack(s) ==> !s'.live)
            && (s.lifetime == 0 && n < s.maxLifetime ==> s'.live)
            && (s.lifetime == 0 && n >= s.maxLifetime + s.maxKeepAlive - 1 ==> !s'.live)
  {
    hide Run, Ticks, AllowedRun;
    IdleRun(s, acts);
  }

  // ------------------------------------------------------------------ keep-alive

  /** A tick with a publish request answers it, or counts towards the next keep-alive. */
  lemma AnsweredTick(s: Sub, a: Action)
    requires Timed(s) && s.live && a.Publish? && a.request
    ensures var s' := Effect(s, a);
            && s'.live && s'.maxKeepAlive == s.maxKeepAlive && |s'.responses| >= |s.responses|
            && (|s'.responses| == |s.responses| ==>
                  s'.keepAlive == s.keepAlive + 1 < s'.maxKeepAlive && s'.requests == s.requests > 0)
  {
    hide Numbers, Trimmed;
  }

  /** Every tick finds a publish request, and the subscription is neither modified nor deleted. */
  predicate Attended(a: Action)
  {
    (a.Publish? ==> a.request) && !a.Modify? && !a.Delete?
  }

  /** What happens between ticks answers a request or leaves the keep-alive count alone. */
  lemma BetweenTicks(s: Sub, a: Action)
    requires s.live && Attended(a) && !a.Publish?
    ensures var s' := Effect(s, a);
            && s'.live && s'.maxKeepAlive == s.maxKeepAlive && |s'.responses| >= |s.responses|
            && (|s'.responses| == |s.responses| ==> s'.keepAlive == s.keepAlive && s'.requests == s.requests)
  {
    hide Numbers, Trimmed, Find, RemoveAt, ItemEffect;
    ItemEffectFrame(s, a);
  }

  lemma {:induction false} AnsweredTicks(s: Sub, acts: seq<Action>)
    requires Timed(s) && s.live && AllowedRun(s, acts) && forall i :: 0 <= i < |acts| ==> Attended(acts[i])
    ensures var s', n := Run(s, acts), Ticks(acts);
            && Timed(s') && s'.live && s'.maxKeepAlive == s.maxKeepAlive && |s'.responses| >= |s.responses|
            && (|s'.responses| == |s.responses| ==>
                  && s'.keepAlive == s.keepAlive + n && s'.requests == s.requests
                  && (n > 0 ==> s.keepAlive + n < s.maxKeepAlive && s.requests > 0))
    decreases |acts|
  {
    hide Effect, Allowed;
    if acts != [] {
      var front, a := acts[..|acts| - 1], acts[|acts| - 1];
      AnsweredTicks(s, front);
      if a.Publish? {
        AnsweredTick(Run(s, front), a);
      } else {
        BetweenTicks(Run(s, front), a);
      }
      StepTimed(Run(s, front), a);
    }
  }

  /**
   * While every tick finds a publish request, whatever else happens, a client hears from the subscription before
   * maxKeepAliveCount ticks have passed since the last response, and from a new subscription at its first tick.
   */
  lemma HeardWithinKeepAlive(s: Sub, acts: seq<Action>)
    requires Timed(s) && s.live && AllowedRun(s, acts) && forall i :: 0 <= i < |acts| ==> Attended(acts[i])
    requires Ticks(acts) >= 1 && (s.keepAlive + Ticks(acts) >= s.maxKeepAlive || s.requests == 0)
    ensures |Run(s, acts).responses| > |s.responses|
  {
    hide Run, AllowedRun, Ticks;
    AnsweredTicks(s, acts);
  }

  // ------------------------------------------------------------------ what the program relies on

  lemma BookedSound(s: Sub)
    requires Booked(s)
    ensures AllSized(s.items) && Labelled(s.items)
  {
    hide Delivered, Increasing;
    forall id, e | id in s.items && e in s.items[id].queue
      ensures e.item == id
    {
      FromLog(s.items[id], id, Delivered(s.sent, id), e);
    }
  }

  lemma InvSound(s: Sub)
    requires Inv(s)
    ensures AllSized(s.items) && Labelled(s.items)
    ensures !s.live ==> s.items == map[]
  {
    BookedSound(s);
  }

  /** After sampling the entries are still labelled with their items, and a dead subscription has nothing to report. */
  lemma RefreshedSound(s: Sub, c: Cycle, resend: bool)
    requires Inv(s) && Possible(s, c, resend, false)
    ensures Labelled(c.refreshed)
    ensures !s.live ==> c.refreshed == map[] && !c.available
  {
    hide Booked, Queued, Labelled, Gathered;
    RefreshedBooked(s, c, resend, false);
    BookedSound(s.(items := c.refreshed));
  }
}
