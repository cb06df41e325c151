/**
 * From polling to publishing: the values that a data-change item of a subscription accepts are the kept samples of
 * the values that were polled, whatever the publishing schedule (opcua/server/datachange_monitored_item.go and
 * opcua/server/subscription.go together).
 */
module Delivery {
  import M = MonitoredItems
  import R = SampledRuns
  import N = Notifications
  import P = Publishing
  import Q = Sessions
  import O = Options
  import Bytes
  import Subscriptions

  /** A moment in the common history of a subscription and of one of its items: a poll, or an action at a time. */
  datatype Moment = Polls(v: M.DataValue) | Acts(a: P.Action, tn: int)

  function Actions(hs: seq<Moment>): (acts: seq<P.Action>)
  {
    if hs == [] then []
    else if hs[|hs| - 1].Acts? then Actions(hs[..|hs| - 1]) + [hs[|hs| - 1].a] else Actions(hs[..|hs| - 1])
  }

  /** The action asks the items for notifications. */
  predicate Cycles(s: P.Sub, a: P.Action)
  {
    s.live && (a.Publish? || (a.LateRequest? && s.late))
  }

  /** The history as the item sees it. */
  function Events(s: P.Sub, hs: seq<Moment>): (es: seq<R.Event>)
  {
    if hs == [] then []
    else
      var front := hs[..|hs| - 1];
      Events(s, front) + match hs[|hs| - 1]
                         case Polls(v) => [R.Poll(v)]
                         case Acts(a, tn) => if Cycles(P.Run(s, Actions(front)), a) then [R.Publish(tn)] else []
  }

  function Wrapped(vs: seq<M.DataValue>): (r: seq<N.Value>)
    ensures |r| == |vs|
  {
    seq(|vs|, i requires 0 <= i < |vs| => N.Data(vs[i]))
  }

  /** The item is neither deleted, switched nor modified, and no data is sent again. */
  predicate Undisturbed(a: P.Action, id: nat)
  {
    && !a.ResendData? && !a.Delete?
    && (a.DeleteItem? || a.SetMonitoringMode? || a.Modifies? ==> a.id != id)
  }

  /** In every cycle the subscription gets from the item what its sampling keeps. */
  ghost predicate Fed(c: M.Sampling, m: M.ItemState, s: P.Sub, hs: seq<Moment>, id: nat)
    requires c.size >= 1
  {
    hs != [] ==>
      var front := hs[..|hs| - 1];
      && Fed(c, m, s, front, id)
      && match hs[|hs| - 1]
         case Polls(_) => true
         case Acts(a, tn) =>
           var s1 := P.Run(s, Actions(front));
           && P.Allowed(s1, a) && Undisturbed(a, id) && P.Effect(s1, a).live
           && (Cycles(s1, a) ==> a.c.kept(id) == Wrapped(M.AcceptedIn(c, R.Run(c, m, Events(s, front)), tn)))
  }

  /** A live subscription with a data-change item that is being sampled, and nothing to be sent again. */
  ghost predicate Sampling(s: P.Sub, id: nat)
  {
    && P.Inv(s) && s.live && !s.resend
    && id in s.items && s.items[id].kind == N.DataChangeKind && s.items[id].mode != M.Disabled
  }

  // ------------------------------------------------------------------ one action

  lemma LogGrows(log: seq<N.Entry>, id: nat, vs: seq<N.Value>)
    ensures N.Values(log + N.Entries(id, |log|, vs)) == N.Values(log) + vs
  {
  }

  /** A cycle adds exactly what sampling keeps to what the item has accepted. */
  lemma CycleLogs(s: P.Sub, a: P.Action, id: nat)
    requires Sampling(s, id) && Cycles(s, a)
    ensures var s' := P.Effect(s, a);
            P.Allowed(s, a) && s'.live ==>
              && id in s'.items && s'.items[id].kind == s.items[id].kind && s'.items[id].mode == s.items[id].mode
              && N.Values(s'.items[id].log) == N.Values(s.items[id].log) + a.c.kept(id)
  {
    hide P.Effect, P.Inv, P.Booked, P.Queued, P.Timed;
    hide N.AcceptAll, N.Accept, N.Gathered, N.TriggeredBy, N.Values, N.Entries;
    if P.Allowed(s, a) && P.Effect(s, a).live {
      var m, c := s.items[id], a.c;
      P.CycleItems(s, a);
      ItemSized(s, id);
      P.InvSound(s);
      N.AcceptAllSurvivors(m, id, c.kept(id));
      N.AcceptAllNonEmpty(m, id, c.kept(id));
      LogGrows(m.log, id, c.kept(id));
      assert c.refreshed[id].log == N.AcceptAll(m, id, c.kept(id)).log;
      if c.available && s.enabled && (a.Publish? ==> a.request) {
        GatheredSame(c.refreshed, s.maxPerPublish, c.batch, id);
      }
    }
  }

  lemma ItemSized(s: P.Sub, id: nat)
    requires P.Inv(s) && id in s.items
    ensures 1 <= s.items[id].size && |s.items[id].queue| <= s.items[id].size
  {
    hide N.Balanced, P.Queued, P.Timed;
    N.Sized(s.items[id], id, P.Delivered(s.sent, id));
  }

  lemma GatheredSame(items: N.Items, max: nat, b: N.Batch, id: nat)
    requires id in items
    ensures N.Gathered(items, max, b) ==>
              id in b.items && b.items[id] == items[id].(queue := b.items[id].queue, triggered := b.items[id].triggered)
  {
    hide N.Of, N.Addressed;
  }

  /** Nothing about the item has changed but its part in triggering. */
  ghost predicate Aside(s: P.Sub, s': P.Sub, id: nat)
    requires id in s.items
  {
    && s'.live && !s'.resend && id in s'.items
    && s'.items[id] == s.items[id].(triggered := s'.items[id].triggered, links := s'.items[id].links)
  }

  /** Actions other than cycles leave the item alone. */
  lemma OtherLogs(s: P.Sub, a: P.Action, id: nat)
    requires Sampling(s, id) && P.Allowed(s, a) && !Cycles(s, a) && Undisturbed(a, id)
    ensures Aside(s, P.Effect(s, a), id)
  {
    hide P.Booked, P.Queued, P.Timed, P.Possible, P.Find, P.RemoveAt, P.ItemEffect;
    assert a.AddItem? ==> a.id != id by {
      IdTaken(s, id);
    }
    ItemsAside(s, a, id);
  }

  lemma ItemsAside(s: P.Sub, a: P.Action, id: nat)
    requires s.live && !s.resend && id in s.items && s.items[id].kind == N.DataChangeKind
    requires Undisturbed(a, id) && (a.AddItem? ==> a.id != id)
    ensures Aside(s, P.ItemEffect(s, a), id)
  {
    hide N.Accept, N.SetMode, N.ModifyItem;
  }

  lemma IdTaken(s: P.Sub, id: nat)
    requires P.Inv(s) && id in s.items
    ensures id < s.nextItem
  {
    hide N.Balanced, P.Delivered;
  }

  lemma CycleClearsResend(s: P.Sub, a: P.Action)
    requires Cycles(s, a) && !s.resend
    ensures !P.Effect(s, a).resend
  {
    hide P.Numbers, P.Trimmed;
  }

  // ------------------------------------------------------------------ every history

  lemma {:induction false} LogIsAccepted(c: M.Sampling, m: M.ItemState, s: P.Sub, hs: seq<Moment>, id: nat)
    requires c.size >= 1 && Sampling(s, id) && s.items[id].log == [] && Fed(c, m, s, hs, id)
    ensures var s' := P.Run(s, Actions(hs));
            Sampling(s', id) && N.Values(s'.items[id].log) == Wrapped(R.Accepted(c, m, Events(s, hs)))
    decreases |hs|
  {
    hide P.Effect, P.Allowed, P.Inv, M.AcceptedIn, R.Accepted, R.Run, N.Values, Wrapped;
    if hs == [] {
      AcceptedNothing(c, m);
    } else {
      var front, h := hs[..|hs| - 1], hs[|hs| - 1];
      LogIsAccepted(c, m, s, front, id);
      var es, es' := Events(s, front), Events(s, hs);
      if h.Acts? {
        var s1 := P.Run(s, Actions(front));
        RunNext(s, Actions(front), h.a);
        P.StepKeeps(s1, h.a);
        if Cycles(s1, h.a) {
          CycleLogs(s1, h.a, id);
          CycleClearsResend(s1, h.a);
          AcceptedNext(c, m, es, R.Publish(h.tn));
        } else {
          OtherLogs(s1, h.a, id);
          assert es' == es;
        }
      } else {
        AcceptedNext(c, m, es, R.Poll(h.v));
      }
    }
  }

  lemma AcceptedNothing(c: M.Sampling, m: M.ItemState)
    requires c.size >= 1
    ensures N.Values([]) == Wrapped(R.Accepted(c, m, []))
  {
  }

  lemma AcceptedNext(c: M.Sampling, m: M.ItemState, es: seq<R.Event>, e: R.Event)
    requires c.size >= 1
    ensures e.Publish? ==>
              Wrapped(R.Accepted(c, m, es + [e]))
              == Wrapped(R.Accepted(c, m, es)) + Wrapped(M.AcceptedIn(c, R.Run(c, m, es), e.tn))
    ensures !e.Publish? ==> R.Accepted(c, m, es + [e]) == R.Accepted(c, m, es)
  {
    hide M.AcceptedIn, R.Run, R.Accepted;
    R.AfterEvent(c, m, es, e);
  }

  lemma RunNext(s: P.Sub, acts: seq<P.Action>, a: P.Action)
    ensures P.Run(s, acts + [a]) == P.Effect(P.Run(s, acts), a)
  {
    hide P.Effect;
    assert (acts + [a])[..|acts|] == acts;
  }

  /**
   * Whatever else the subscription does, and whenever it publishes, what the item has accepted is what one single
   * advance over all polled values keeps: the latest value at each sampling instant, if it changed. No value may
   * have come too late for an instant that was already sampled.
   */
  lemma AcceptedAreKeptSamples(c: M.Sampling, m: M.ItemState, s: P.Sub, hs: seq<Moment>, id: nat)
    requires M.Valid(c) && M.Steady(c.changed) && Sampling(s, id) && s.items[id].log == []
    ensures var s', es := P.Run(s, Actions(hs)), Events(s, hs);
            var samples := M.Samples(c, R.Whole(m, es), m.previous, m.ts, R.Latest(m, es));
            Fed(c, m, s, hs, id) && R.Undelayed(c, m, es) ==>
              id in s'.items
              && N.Values(s'.items[id].log) == Wrapped(M.Stamped(c, M.Kept(c.changed, m.previous, samples)))
  {
    hide P.Run, Fed, Events, R.Undelayed, R.Accepted, R.Run, M.Samples, M.Kept, M.Steady, P.Inv, M.Advance;
    if Fed(c, m, s, hs, id) && R.Undelayed(c, m, Events(s, hs)) {
      LogIsAccepted(c, m, s, hs, id);
      R.RunIsOneAdvance(c, m, Events(s, hs));
    }
  }

  /** Without a sampling interval these are the changes among the polled values, at any time and for any test. */
  lemma AcceptedAreChanges(c: M.Sampling, m: M.ItemState, s: P.Sub, hs: seq<Moment>, id: nat)
    requires c.size >= 1 && c.interval <= 0 && Sampling(s, id) && s.items[id].log == []
    ensures var s' := P.Run(s, Actions(hs));
            var changes := M.Kept(c.changed, m.previous, R.Reached(m, Events(s, hs)));
            Fed(c, m, s, hs, id) ==> id in s'.items && N.Values(s'.items[id].log) == Wrapped(M.Stamped(c, changes))
  {
    hide P.Run, Fed, Events, R.Accepted, R.Run, R.Reached, M.Kept, P.Inv;
    if Fed(c, m, s, hs, id) {
      LogIsAccepted(c, m, s, hs, id);
      R.DrainsAsOne(c, m, Events(s, hs));
    }
  }

  // ------------------------------------------------------------------ the item's queue and the subscription's

  /** The item object holds the queue that the subscription keeps for it. */
  ghost predicate SameQueue(c: M.Sampling, n: N.Item, i: M.ItemState)
  {
    n.size == c.size && n.discardOldest == c.discardOldest && N.Values(n.queue) == Wrapped(i.queue)
  }

  lemma WrappedEnqueue(q: seq<M.DataValue>, size: nat, discardOldest: bool, v: M.DataValue)
    requires size >= 1
    ensures Wrapped(M.Enqueue(q, size, discardOldest, v)) == M.Enqueue(Wrapped(q), size, discardOldest, N.Data(v))
  {
  }

  lemma {:induction false} WrappedEnqueueAll(q: seq<M.DataValue>, size: nat, discardOldest: bool, vs: seq<M.DataValue>)
    requires size >= 1
    ensures Wrapped(M.EnqueueAll(q, size, discardOldest, vs))
            == M.EnqueueAll(Wrapped(q), size, discardOldest, Wrapped(vs))
    decreases |vs|
  {
    hide M.Enqueue;
    if vs != [] {
      WrappedEnqueue(q, size, discardOldest, vs[0]);
      WrappedEnqueueAll(M.Enqueue(q, size, discardOldest, vs[0]), size, discardOldest, vs[1..]);
      assert Wrapped(vs)[1..] == Wrapped(vs[1..]);
    }
  }

  /** What updating the queue does to an item object, in terms of the values it accepts. */
  lemma RefreshedIs(c: M.Sampling, i: M.ItemState, i': M.ItemState, tn: int)
    requires c.size >= 1 && i' == i.(queue := i'.queue)
    ensures var r, r' := M.Refreshed(c, i, tn), M.Refreshed(c, i', tn);
            r.queue == M.EnqueueAll(i.queue, c.size, c.discardOldest, M.AcceptedIn(c, i, tn))
            && r' == r.(queue := r'.queue) && M.AcceptedIn(c, i', tn) == M.AcceptedIn(c, i, tn)
  {
    hide M.Advance, M.Samples, M.Kept, M.EnqueueAll, M.NextInstant, M.Left, M.Stamped;
    if c.interval > 0 {
      M.AdvanceIsSpecified(c, i, i.previous, tn);
      M.AdvanceIsSpecified(c, i', i'.previous, tn);
    }
  }

  /** A cycle leaves the end of what the item's queue was after sampling, and sends the rest. */
  lemma CycleQueue(s: P.Sub, a: P.Action, id: nat)
    requires Sampling(s, id) && Cycles(s, a)
    ensures var s' := P.Effect(s, a);
            P.Allowed(s, a) && s'.live ==>
              && id in s'.items && 1 <= s.items[id].size == s'.items[id].size
              && s'.items[id].discardOldest == s.items[id].discardOldest
              && Ends(N.AcceptAll(s.items[id], id, a.c.kept(id)).queue, s'.items[id].queue)
  {
    hide P.Effect, P.Inv, P.Booked, P.Queued, P.Timed, N.AcceptAll, N.Accept, N.Gathered, N.TriggeredBy, N.Entries;
    if P.Allowed(s, a) && P.Effect(s, a).live {
      var m, c := s.items[id], a.c;
      P.CycleItems(s, a);
      ItemSized(s, id);
      P.InvSound(s);
      N.AcceptAllSurvivors(m, id, c.kept(id));
      assert c.refreshed[id].queue == N.AcceptAll(m, id, c.kept(id)).queue;
      if c.available && s.enabled && (a.Publish? ==> a.request) {
        GatheredEnds(c.refreshed, s.maxPerPublish, c.batch, id);
      }
    }
  }

  ghost predicate Ends(q: seq<N.Entry>, rest: seq<N.Entry>)
  {
    |rest| <= |q| && rest == q[|q| - |rest|..]
  }

  lemma GatheredEnds(items: N.Items, max: nat, b: N.Batch, id: nat)
    requires id in items
    ensures N.Gathered(items, max, b) ==>
              && id in b.items && Ends(items[id].queue, b.items[id].queue)
              && b.items[id].size == items[id].size && b.items[id].discardOldest == items[id].discardOldest
  {
    hide N.Of, N.Addressed;
  }

  lemma EndsAlike(q: seq<N.Entry>, rest: seq<N.Entry>, vs: seq<M.DataValue>)
    requires Ends(q, rest) && N.Values(q) == Wrapped(vs)
    ensures |rest| <= |vs| && N.Values(rest) == Wrapped(vs[|vs| - |rest|..])
  {
    var k := |q| - |rest|;
    assert |vs| == |Wrapped(vs)| == |N.Values(q)|;
    forall j | 0 <= j < |rest|
      ensures N.Values(rest)[j] == Wrapped(vs[k..])[j]
    {
      assert rest[j] == q[k + j] && N.Values(q)[k + j] == Wrapped(vs)[k + j];
    }
  }

  /** Both queues are left with the same values when the object gives up what the subscription has sent. */
  lemma QueueFollows(s: P.Sub, a: P.Action, id: nat, c: M.Sampling, i: M.ItemState, tn: int)
    requires Sampling(s, id) && Cycles(s, a) && P.Allowed(s, a) && P.Effect(s, a).live
    requires c.size >= 1 && SameQueue(c, s.items[id], i) && a.c.kept(id) == Wrapped(M.AcceptedIn(c, i, tn))
    ensures var items, r := P.Effect(s, a).items, M.Refreshed(c, i, tn);
            && id in items && |items[id].queue| <= |r.queue|
            && SameQueue(c, items[id], r.(queue := r.queue[|r.queue| - |items[id].queue|..]))
  {
    hide P.Effect, P.Inv, P.Allowed, N.AcceptAll, M.EnqueueAll, M.AcceptedIn, M.Refreshed, N.Values, Wrapped, Ends;
    CycleQueue(s, a, id);
    N.AcceptAllValues(s.items[id], id, a.c.kept(id));
    RefreshedIs(c, i, i, tn);
    WrappedEnqueueAll(i.queue, c.size, c.discardOldest, M.AcceptedIn(c, i, tn));
    EndsAlike(N.AcceptAll(s.items[id], id, a.c.kept(id)).queue, P.Effect(s, a).items[id].queue,
              M.Refreshed(c, i, tn).queue);
  }

  /** An item object that is asked to send its value again queues what the subscription counts as accepted. */
  lemma ResendFollows(c: M.Sampling, n: N.Item, id: nat, i: M.ItemState, tn: int, current: M.DataValue, cs: N.Samples)
    requires c.size >= 1 && SameQueue(c, n, i) && n.kind == N.DataChangeKind && n.mode != M.Disabled
    requires cs.kept(id) == Wrapped(M.AcceptedIn(c, i, tn)) && cs.current(id) == N.Data(c.stamp(current))
    ensures SameQueue(c, N.Sampled(n, id, cs), M.Resent(c, n.mode, cs.resend, current, M.Refreshed(c, i, tn)))
  {
    hide P.Inv, N.AcceptAll, M.EnqueueAll, M.AcceptedIn, M.Refreshed, N.Overflow;
    var n1, r := N.AcceptAll(n, id, cs.kept(id)), M.Refreshed(c, i, tn);
    SameSettings(n, id, cs.kept(id));
    N.AcceptAllValues(n, id, cs.kept(id));
    RefreshedIs(c, i, i, tn);
    WrappedEnqueueAll(i.queue, c.size, c.discardOldest, M.AcceptedIn(c, i, tn));
    assert N.Values(n1.queue) == Wrapped(r.queue);
    if cs.resend && n.mode == M.Reporting && n1.queue == [] {
      assert |Wrapped(r.queue)| == 0;
      assert N.Values(N.Sampled(n, id, cs).queue) == [N.Data(c.stamp(current))];
    } else {
      assert n1.queue == [] <==> |Wrapped(r.queue)| == 0;
    }
  }

  lemma {:induction false} SameSettings(n: N.Item, id: nat, vs: seq<N.Value>)
    requires n.size >= 1
    ensures var r := N.AcceptAll(n, id, vs); r.discardOldest == n.discardOldest && r.mode == n.mode
    decreases |vs|
  {
    hide M.Enqueue, N.Overflow;
    if vs != [] {
      SameSettings(N.Accept(n, id, vs[0]), id, vs[1..]);
    }
  }

  /** What was sent again is not reported once more at the next sample, if the value has not changed. */
  lemma ResentIsRemembered(c: M.Sampling, mode: M.Mode, current: M.DataValue, m: M.ItemState)
    requires mode == M.Reporting && m.queue == [] && !c.changed(current, current)
    ensures var r := M.Resent(c, mode, true, current, m);
            r.queue == [c.stamp(current)] && M.Kept(c.changed, r.previous, [current]) == []
  {
    assert M.Kept(c.changed, current, [current]) == M.Kept(c.changed, current, [current][1..]);
  }

  // ------------------------------------------------------------------ a subscription with one of its items

  /** Subscription `s` and item object `i` are where history `hs` has brought them. */
  ghost predicate Followed(c: M.Sampling, m: M.ItemState, s0: P.Sub, hs: seq<Moment>, id: nat, s: P.Sub, i: M.ItemState)
  {
    && c.size >= 1 && Sampling(s0, id) && s0.items[id].log == [] && Fed(c, m, s0, hs, id)
    && s == P.Run(s0, Actions(hs)) && Sampling(s, id) && SameQueue(c, s.items[id], i)
    && i == R.Run(c, m, Events(s0, hs)).(queue := i.queue)
  }

  lemma HistoryNext(s: P.Sub, hs: seq<Moment>, h: Moment)
    ensures Actions(hs + [h]) == if h.Acts? then Actions(hs) + [h.a] else Actions(hs)
    ensures h.Polls? ==> Events(s, hs + [h]) == Events(s, hs) + [R.Poll(h.v)]
    ensures h.Acts? ==>
              Events(s, hs + [h])
              == Events(s, hs) + if Cycles(P.Run(s, Actions(hs)), h.a) then [R.Publish(h.tn)] else []
  {
    hide P.Run, Cycles;
    assert (hs + [h])[..|hs|] == hs;
  }

  lemma FedNext(c: M.Sampling, m: M.ItemState, s: P.Sub, hs: seq<Moment>, id: nat, h: Moment)
    requires c.size >= 1 && Fed(c, m, s, hs, id)
    requires h.Acts? ==>
               var s1 := P.Run(s, Actions(hs));
               && P.Allowed(s1, h.a) && Undisturbed(h.a, id) && P.Effect(s1, h.a).live
               && (Cycles(s1, h.a) ==>
                     h.a.c.kept(id) == Wrapped(M.AcceptedIn(c, R.Run(c, m, Events(s, hs)), h.tn)))
    ensures Fed(c, m, s, hs + [h], id)
  {
    hide P.Run, P.Allowed, P.Effect, R.Run, M.AcceptedIn, Wrapped, Events, Undisturbed;
    assert (hs + [h])[..|hs|] == hs;
  }

  lemma PollFollowed(c: M.Sampling, m: M.ItemState, s0: P.Sub, hs: seq<Moment>, id: nat, s: P.Sub, i: M.ItemState,
                     v: M.DataValue)
    requires Followed(c, m, s0, hs, id, s, i)
    ensures Followed(c, m, s0, hs + [Polls(v)], id, s, i.(prequeue := i.prequeue + [v]))
  {
    hide P.Run, Sampling, R.Run, Events, Fed, Actions;
    HistoryNext(s0, hs, Polls(v));
    FedNext(c, m, s0, hs, id, Polls(v));
    R.AfterEvent(c, m, Events(s0, hs), R.Poll(v));
  }

  /** A cycle whose values come from the item object, which then gives up what was sent. */
  lemma CycleFollowed(c: M.Sampling, m: M.ItemState, s0: P.Sub, hs: seq<Moment>, id: nat, s: P.Sub, i: M.ItemState,
                      a: P.Action, tn: int, i': M.ItemState)
    requires Followed(c, m, s0, hs, id, s, i) && Cycles(s, a) && P.Allowed(s, a) && P.Effect(s, a).live
    requires a.c.kept(id) == Wrapped(M.AcceptedIn(c, i, tn))
    requires i' == M.Refreshed(c, i, tn).(queue := i'.queue)
    requires id in P.Effect(s, a).items && SameQueue(c, P.Effect(s, a).items[id], i')
    ensures Followed(c, m, s0, hs + [Acts(a, tn)], id, P.Effect(s, a), i')
  {
    hide P.Run, P.Effect, P.Allowed, M.Refreshed, M.AcceptedIn, R.Run;
    hide SameQueue, Events, Actions, Fed, Sampling, Wrapped;
    var es := Events(s0, hs);
    HistoryNext(s0, hs, Acts(a, tn));
    RefreshedIs(c, i, R.Run(c, m, es), tn);
    FedNext(c, m, s0, hs, id, Acts(a, tn));
    R.AfterEvent(c, m, es, R.Publish(tn));
    RunNext(s0, Actions(hs), a);
    CycleSampling(s, a, id);
  }

  lemma CycleSampling(s: P.Sub, a: P.Action, id: nat)
    requires Sampling(s, id) && Cycles(s, a) && P.Allowed(s, a) && P.Effect(s, a).live
    ensures Sampling(P.Effect(s, a), id) && P.Effect(s, a).items[id].mode == s.items[id].mode
  {
    hide P.Inv, P.Effect, P.Allowed, N.Values;
    P.StepKeeps(s, a);
    CycleLogs(s, a, id);
    CycleClearsResend(s, a);
  }

  /** The item object gives up what was sent, and keeps as many values as the subscription does. */
  lemma GivenUp(c: M.Sampling, m: M.ItemState, s0: P.Sub, hs: seq<Moment>, id: nat, s: P.Sub, i: M.ItemState,
                a: P.Action, tn: int)
    requires Followed(c, m, s0, hs, id, s, i) && Cycles(s, a) && P.Allowed(s, a) && P.Effect(s, a).live
    requires a.c.kept(id) == Wrapped(M.AcceptedIn(c, i, tn))
    ensures var items, r := P.Effect(s, a).items, M.Refreshed(c, i, tn);
            && id in items && items[id].mode == s.items[id].mode && |items[id].queue| <= |r.queue|
            && Followed(c, m, s0, hs + [Acts(a, tn)], id, P.Effect(s, a),
                        r.(queue := r.queue[|r.queue| - |items[id].queue|..]))
  {
    hide P.Run, P.Effect, P.Allowed, M.Refreshed, M.AcceptedIn, R.Run;
    hide SameQueue, Events, Actions, Fed, Sampling, Wrapped;
    QueueFollows(s, a, id, c, i, tn);
    CycleSampling(s, a, id);
    var items, r := P.Effect(s, a).items, M.Refreshed(c, i, tn);
    CycleFollowed(c, m, s0, hs, id, s, i, a, tn, r.(queue := r.queue[|r.queue| - |items[id].queue|..]));
  }

  lemma OtherSampling(s: P.Sub, a: P.Action, id: nat)
    requires Sampling(s, id) && P.Allowed(s, a) && !Cycles(s, a) && Undisturbed(a, id)
    ensures Sampling(P.Effect(s, a), id) && P.Effect(s, a).items[id].mode == s.items[id].mode
  {
    hide P.Inv, P.Effect, P.Allowed, Undisturbed;
    P.StepKeeps(s, a);
    OtherLogs(s, a, id);
  }

  /** Any other action leaves the item object alone. */
  lemma OtherFollowed(c: M.Sampling, m: M.ItemState, s0: P.Sub, hs: seq<Moment>, id: nat, s: P.Sub, i: M.ItemState,
                      a: P.Action, tn: int)
    requires Followed(c, m, s0, hs, id, s, i) && !Cycles(s, a) && P.Allowed(s, a) && Undisturbed(a, id)
    ensures Followed(c, m, s0, hs + [Acts(a, tn)], id, P.Effect(s, a), i)
  {
    hide P.Run, P.Inv, P.Effect, P.Allowed, M.AcceptedIn, R.Run, Events, Actions, Fed, N.Values, Undisturbed;
    HistoryNext(s0, hs, Acts(a, tn));
    OtherSampling(s, a, id);
    OtherLogs(s, a, id);
    FedNext(c, m, s0, hs, id, Acts(a, tn));
    RunNext(s0, Actions(hs), a);
    assert Events(s0, hs) + [] == Events(s0, hs);
  }

  /** What all items keep: `mine` for item `id`, and `others` for the rest. */
  function WithItem(id: nat, mine: seq<N.Value>, others: nat -> seq<N.Value>): (kept: nat -> seq<N.Value>)
    ensures kept(id) == mine && forall k :: k != id ==> kept(k) == others(k)
  {
    (k: nat) => if k == id then mine else others(k)
  }

  function AsValues(current: nat -> M.DataValue): (r: nat -> N.Value)
  {
    (k: nat) => N.Data(current(k))
  }

  /** `Subscription` and `DataChangeMonitoredItem` together; the ghost fields tell how they got here. */
  class Feed {
    const id: nat
    const sub: Subscriptions.Subscription
    const item: M.DataChangeItem
    ghost var start: P.Sub
    ghost var initial: M.ItemState
    ghost var history: seq<Moment>

    ghost predicate Valid()
      reads this, sub, item
    {
      sub.s.live ==>
        && Followed(item.c, initial, start, history, id, sub.s, item.State())
        && item.mode == sub.s.items[id].mode
    }

    /** The item has just been added to the subscription. */
    constructor (id: nat, sub: Subscriptions.Subscription, item: M.DataChangeItem)
      requires Sampling(sub.s, id) && sub.s.items[id].log == [] && item.c.size >= 1
      requires SameQueue(item.c, sub.s.items[id], item.State()) && item.mode == sub.s.items[id].mode
      ensures Valid() && this.id == id && this.sub == sub && this.item == item
      ensures start == sub.s && initial == item.State() && history == []
    {
      this.id, this.sub, this.item := id, sub, item;
      start, initial, history := sub.s, item.State(), [];
    }

    /** `Poll` of the item. */
    method Poll(v: M.DataValue)
      requires Valid() && sub.s.live
      modifies this`history, item
      ensures Valid() && sub.s.live && history == old(history) + [Polls(v)]
    {
      hide Followed;
      PollFollowed(item.c, initial, start, history, id, sub.s, item.State(), v);
      item.Poll(v);
      history := history + [Polls(v)];
    }

    /** The item, whose queue is up to date, gives up the notifications that the subscription has sent. */
    method GiveUp(ghost s: P.Sub, ghost i: M.ItemState, ghost a: P.Action, ghost tn: int)
      requires Followed(item.c, initial, start, history, id, s, i) && Cycles(s, a) && P.Allowed(s, a)
      requires sub.s == P.Effect(s, a) && sub.s.live && a.c.kept(id) == Wrapped(M.AcceptedIn(item.c, i, tn))
      requires item.State() == M.Refreshed(item.c, i, tn) && item.mode == s.items[id].mode
      modifies item`queue, item`triggered
      ensures Followed(item.c, initial, start, history + [Acts(a, tn)], id, sub.s, item.State())
      ensures item.mode == sub.s.items[id].mode
    {
      hide P.Effect, P.Allowed, P.Inv, M.Refreshed, M.AcceptedIn, R.Run, Followed, Wrapped;
      GivenUp(item.c, initial, start, history, id, s, i, a, tn);
      ghost var q := item.queue;
      var taken, more := item.Notifications(|item.queue| - |sub.s.items[id].queue|);
      assert item.queue == q[|q| - |sub.s.items[id].queue|..];
    }

    /**
     * A tick of the publishing interval at `tn`: the item updates its queue, and the subscription publishes.
     * `others` is what its other items keep.
     */
    method Publish(session: Q.Session, now: int, tn: int, others: nat -> seq<N.Value>, current: nat -> M.DataValue)
      returns (ghost a: P.Action)
      requires Valid() && sub.s.live
      modifies this`history, sub, item, session`queue, session`answered
      ensures a.Publish? && P.Allowed(old(sub.s), a) && sub.s == P.Effect(old(sub.s), a)
      ensures Valid() && history == old(history) + [Acts(a, tn)]
    {
      hide P.Inv, P.Effect, P.Allowed, M.Refreshed, M.AcceptedIn, SameQueue, R.Run, Fed, Wrapped;
      ghost var s, i := sub.s, item.State();
      var available, kept := item.NotificationsAvailable(tn, sub.s.resend, current(id));
      a := sub.Publish(session, now, WithItem(id, Wrapped(kept), others), AsValues(current));
      if sub.s.live {
        GiveUp(s, i, a, tn);
      }
      history := history + [Acts(a, tn)];
    }

    /** A publish request finds the subscription late: the items are asked at `tn`, as on a tick. */
    method HandleLatePublishRequest(
      session: Q.Session, r: Q.Request, tn: int, others: nat -> seq<N.Value>, current: nat -> M.DataValue)
      returns (handled: bool, ghost a: P.Action)
      requires Valid() && sub.s.live
      modifies this`history, sub, item, session`answered
      ensures a.LateRequest? && P.Allowed(old(sub.s), a) && sub.s == P.Effect(old(sub.s), a) && sub.s.live
      ensures Valid() && history == old(history) + [Acts(a, tn)]
    {
      hide P.Inv, P.Effect, P.Allowed, M.Refreshed, M.AcceptedIn, SameQueue, R.Run, Fed, Wrapped;
      ghost var s, i := sub.s, item.State();
      var available, kept := false, [];
      var late := sub.s.late;
      if late {
        available, kept := item.NotificationsAvailable(tn, false, current(id));
      }
      handled, a := sub.HandleLatePublishRequest(
        session, r, WithItem(id, Wrapped(kept), others), AsValues(current));
      if late {
        GiveUp(s, i, a, tn);
      } else {
        OtherFollowed(item.c, initial, start, history, id, s, i, a, tn);
        OtherSampling(s, a, id);
      }
      history := history + [Acts(a, tn)];
    }

    method Acknowledge(number: Bytes.u32) returns (found: bool)
      requires Valid() && sub.s.live
      modifies this`history, sub
      ensures sub.s == P.Effect(old(sub.s), P.Acknowledge(number)) && sub.s.live
      ensures Valid() && history == old(history) + [Acts(P.Acknowledge(number), 0)]
    {
      hide P.Inv, P.Effect, SameQueue, R.Run, Fed;
      ghost var s := sub.s;
      OtherFollowed(item.c, initial, start, history, id, s, item.State(), P.Acknowledge(number), 0);
      OtherSampling(s, P.Acknowledge(number), id);
      found := sub.Acknowledge(number);
      history := history + [Acts(P.Acknowledge(number), 0)];
    }

    method Republish(number: Bytes.u32) returns (m: O.Option<P.Message>)
      requires Valid() && sub.s.live
      modifies this`history, sub
      ensures sub.s == P.Effect(old(sub.s), P.Republish(number)) && sub.s.live
      ensures Valid() && history == old(history) + [Acts(P.Republish(number), 0)]
    {
      hide P.Inv, P.Effect, SameQueue, R.Run, Fed;
      ghost var s := sub.s;
      OtherFollowed(item.c, initial, start, history, id, s, item.State(), P.Republish(number), 0);
      OtherSampling(s, P.Republish(number), id);
      m := sub.Republish(number);
      history := history + [Acts(P.Republish(number), 0)];
    }

    /** Whatever has been done, the subscription's books for the item hold what was polled and kept. */
    lemma BooksHoldSamples()
      requires Valid() && sub.s.live && M.Valid(item.c) && M.Steady(item.c.changed)
      ensures var es := Events(start, history);
              var samples :=
                M.Samples(item.c, R.Whole(initial, es), initial.previous, initial.ts, R.Latest(initial, es));
              R.Undelayed(item.c, initial, es) ==>
                N.Values(sub.s.items[id].log)
                == Wrapped(M.Stamped(item.c, M.Kept(item.c.changed, initial.previous, samples)))
    {
      hide P.Inv, SameQueue, R.Run, Fed, R.Undelayed, M.Samples, M.Kept, M.Steady, N.Values, Wrapped, Events;
      AcceptedAreKeptSamples(item.c, initial, start, history, id);
    }
  }
}
