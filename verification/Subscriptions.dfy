/**
 * `Subscription` and the publish handler as a program (opcua/server/subscription.go and server_service_set.go):
 * every method takes one of the steps of the publishing state machine, and one of the steps of the session.
 */
module Subscriptions {
  import opened Bytes
  import opened Notifications
  import M = MonitoredItems
  import P = Publishing
  import O = Options
  import S = Sessions
  import L = Lateness
  import Revision

  /** The loop that makes room in the retransmission queue: a removed element has no successor. */
  method TrimQueue(queue: seq<P.Message>) returns (q: seq<P.Message>)
    ensures q == P.Trimmed(queue)
  {
    q := queue;
    var e := |q| > 0;
    while e && |q| >= P.MAX_RETRANSMISSIONS
      invariant if e then q == queue && |q| > 0 else q == P.Trimmed(queue)
      decreases e
    {
      q := q[1..];
      e := false;
    }
  }

  method Available(queue: seq<P.Message>) returns (numbers: seq<u32>)
    ensures numbers == P.Numbers(queue)
  {
    numbers := [];
    for i := 0 to |queue|
      invariant |numbers| == i && forall j :: 0 <= j < i ==> numbers[j] == queue[j].number
    {
      numbers := numbers + [queue[i].number];
    }
  }

  /** The loop of `acknowledge` and of the republish handler. */
  method FindMessage(queue: seq<P.Message>, number: u32) returns (i: nat)
    ensures i == P.Find(queue, number)
  {
    i := 0;
    while i < |queue|
      invariant i <= |queue| && P.Find(queue, number) == i + P.Find(queue[i..], number)
    {
      if queue[i].number == number {
        return;
      }
      assert queue[i..][1..] == queue[i + 1..];
      i := i + 1;
    }
  }

  /** `Subscription`. Its fields are those of the record `s`, which the methods update in place. */
  class Subscription {
    var s: P.Sub

    constructor (interval: Revision.Requested, keepAlive: u32, lifetime: u32, maxPerPublish: u32, enabled: bool)
      ensures s == P.New(Revision.Revise(interval, keepAlive, lifetime), maxPerPublish, enabled) && P.Inv(s)
    {
      var p := Revision.Revise(interval, keepAlive, lifetime);
      s := P.New(p, maxPerPublish, enabled);
      new;
      P.StartsWell(p, maxPerPublish, enabled);
    }

    method SendMessage(b: Batch, late: bool)
      modifies this
      ensures s == P.Sends(old(s), b).(late := late)
    {
      hide P.Trimmed, P.Numbers;
      var m := P.Message(s.next, b.changes, b.events);
      var q := TrimQueue(s.queue);
      q := q + [m];
      var available := Available(q);
      s := s.(items := b.items, queue := q, sent := s.sent + [m],
              responses := s.responses + [P.Response(available, b.more, m)]);
      s := s.(requests := s.requests + 1, next := Inc32(s.next), keepAlive := 0, lifetime := 0, late := late);
    }

    method SendKeepAlive()
      modifies this
      ensures s == P.KeepsAlive(old(s)) && !s.late
    {
      hide P.Numbers;
      var available := Available(s.queue);
      s := s.(responses := s.responses + [P.Response(available, false, P.Message(s.next, [], []))],
              requests := s.requests + 1, keepAlive := 0, lifetime := 0, late := false);
    }

    /** There is no publish request; `exactly` is the test of the keep-alive branch. */
    method Age(exactly: bool)
      modifies this
      ensures s == P.Ages(old(s), exactly)
    {
      s := s.(late := true, lifetime := s.lifetime + 1);
      if (if exactly then s.lifetime == s.maxLifetime else s.lifetime >= s.maxLifetime) {
        s := s.(timeouts := s.timeouts + [s.next], next := Inc32(s.next));
        s := s.(live := false, items := map[], queue := []);
      }
    }

    /** The branch of `publish` for notifications. */
    method PublishData(session: S.Session, now: int) returns (request: bool, ghost b: Batch)
      requires Labelled(s.items)
      modifies this, session`queue, session`answered
      ensures request ==> Gathered(old(s).items, old(s).maxPerPublish, b)
      ensures s == if request then P.Sends(old(s), b).(late := false) else P.Ages(old(s), false)
      ensures session.Contents() == S.Take(old(session.Contents()), now)
      ensures request <==> S.Removed(old(session.queue), now).Some?
    {
      hide P.Sends, P.Ages, Gathered, S.Remove, S.Removed;
      b := Batch(map[], [], [], false);
      var r := session.RemovePublishRequest(now);
      request := r.Some?;
      if request {
        var batch := Gather(s.items, s.maxPerPublish);
        SendMessage(batch, false);
        session.WriteAnswer(r.value, S.Publication);
        b := batch;
      } else {
        Age(false);
      }
    }

    /** The branch of `publish` for keep-alives, once the keep-alive count is used up. */
    method PublishKeepAlive(session: S.Session, now: int) returns (request: bool)
      modifies this, session`queue, session`answered
      ensures s == if request then P.KeepsAlive(old(s)) else P.Ages(old(s), true)
      ensures request ==> !s.late
      ensures session.Contents() == S.Take(old(session.Contents()), now)
      ensures request <==> S.Removed(old(session.queue), now).Some?
    {
      hide P.KeepsAlive, P.Ages, S.Remove, S.Removed;
      var r := session.RemovePublishRequest(now);
      request := r.Some?;
      if request {
        SendKeepAlive();
        session.WriteAnswer(r.value, S.Publication);
      } else {
        Age(true);
      }
    }

    /** `publish`: one tick of the publishing interval. `kept` and `current` are what sampling the items yields. */
    method Publish(session: S.Session, now: int, kept: nat -> seq<Value>, current: nat -> Value)
      returns (ghost a: P.Action)
      requires P.Inv(s)
      modifies this, session`queue, session`answered
      ensures a.Publish? && P.Allowed(old(s), a) && s == P.Effect(old(s), a) && P.Inv(s)
      ensures a.c.kept == kept && a.c.current == current
      ensures session.Contents() == if old(s).live && L.Due(old(s), a.c) then S.Take(old(session.Contents()), now)
                                    else old(session.Contents())
      ensures a.request <==> old(s).live && L.Due(old(s), a.c) && S.Removed(old(session.queue), now).Some?
      ensures old(s).live && s.live ==>
                (s.late <==> if L.Due(old(s), a.c) then S.Removed(old(session.queue), now).None? else old(s).late)
    {
      hide P.Inv, P.Sends, P.KeepsAlive, P.Ages, S.Take, S.Removed, Refreshed, Gathered, AllSized, Labelled;
      P.InvSound(s);
      var refreshed, available := RefreshAll(s.items, Samples(kept, s.resend, current));
      ghost var c := P.Cycle(kept, current, refreshed, available, Batch(map[], [], [], false));
      a := P.Publish(c, false);
      P.RefreshedSound(s, c, s.resend);
      s := s.(items := refreshed, resend := false);
      if available && s.enabled {
        var request, b := PublishData(session, now);
        a := P.Publish(c.(batch := b), request);
      } else {
        s := s.(keepAlive := s.keepAlive + 1);
        if (s.keepAlive >= s.maxKeepAlive || s.requests == 0) && s.live {
          var request := PublishKeepAlive(session, now);
          a := P.Publish(c, request);
        }
      }
      P.StepKeeps(old(s), a);
      if old(s).live {
        L.TickIs(old(s), a);
      }
    }

    /** `handleLatePublishRequest` */
    method HandleLatePublishRequest(session: S.Session, r: S.Request, kept: nat -> seq<Value>, current: nat -> Value)
      returns (handled: bool, ghost a: P.Action)
      requires P.Inv(s) && s.live
      modifies this, session`answered
      ensures a.LateRequest? && P.Allowed(old(s), a) && s == P.Effect(old(s), a) && P.Inv(s) && s.live
      ensures a.c.kept == kept && a.c.current == current
      ensures session.Contents()
              == if handled then S.Write(old(session.Contents()), r, S.Publication) else old(session.Contents())
      ensures handled <==> |s.responses| > |old(s).responses|
      ensures handled <==> old(s).late && (L.HasData(old(s), a.c) || L.KeepAliveDue(old(s)))
      ensures L.Waits(old(s)) ==> handled
    {
      hide P.Inv, P.Numbers, P.Trimmed, Refreshed, Gathered, AllSized, Labelled;
      handled := false;
      ghost var c := P.Cycle(kept, current, s.items, false, Batch(map[], [], [], false));
      a := P.LateRequest(c);
      if s.late {
        P.InvSound(s);
        var refreshed, available := RefreshAll(s.items, Samples(kept, false, current));
        c := c.(refreshed := refreshed, available := available);
        P.RefreshedSound(s, c, false);
        s := s.(items := refreshed);
        if available && s.enabled {
          var b := Gather(s.items, s.maxPerPublish);
          c := c.(batch := b);
          SendMessage(b, b.more);
          handled := true;
        } else if s.keepAlive >= s.maxKeepAlive || s.requests == 0 {
          SendKeepAlive();
          handled := true;
        }
        if handled {
          session.WriteAnswer(r, S.Publication);
        }
        a := P.LateRequest(c);
      }
      P.StepKeeps(old(s), a);
      if L.Waits(old(s)) {
        L.WaitingAnswers(old(s), a);
      }
    }

    method Acknowledge(number: u32) returns (found: bool)
      requires P.Inv(s) && s.live
      modifies this
      ensures s == P.Effect(old(s), P.Acknowledge(number)) && P.Inv(s)
      ensures found <==> exists m :: m in old(s).queue && m.number == number
    {
      hide P.Inv, P.Find, P.RemoveAt;
      var i := FindMessage(s.queue, number);
      found := i < |s.queue|;
      if found {
        s := s.(queue := P.RemoveAt(s.queue, i), released := s.released + {number});
      }
      P.StepKeeps(old(s), P.Acknowledge(number));
    }

    /** The part of `handleRepublish` that concerns the subscription: the message, if it is still held. */
    method Republish(number: u32) returns (m: O.Option<P.Message>)
      requires P.Inv(s) && s.live
      modifies this
      ensures s == P.Effect(old(s), P.Republish(number)) && P.Inv(s)
      ensures m.Some? ==> m.value in old(s).queue && m.value.number == number
      ensures m.None? <==> forall x :: x in old(s).queue ==> x.number != number
    {
      hide P.Inv, P.Find, P.RemoveAt;
      s := s.(lifetime := 0);
      m := O.None;
      var i := FindMessage(s.queue, number);
      if i < |s.queue| {
        m := O.Some(s.queue[i]);
        s := s.(queue := P.RemoveAt(s.queue, i), released := s.released + {number});
      }
      P.StepKeeps(old(s), P.Republish(number));
    }

    method Modify(interval: Revision.Requested, keepAlive: u32, lifetime: u32, maxPerPublish: u32)
      requires P.Inv(s) && s.live
      modifies this
      ensures s == P.Effect(old(s), P.Modify(Revision.Revise(interval, keepAlive, lifetime), maxPerPublish)) && P.Inv(s)
    {
      hide P.Inv, Revision.Revised;
      var p := Revision.Revise(interval, keepAlive, lifetime);
      s := s.(maxLifetime := p.lifetime, maxKeepAlive := p.keepAlive, maxPerPublish := P.MaxPerPublish(maxPerPublish));
      s := s.(lifetime := 0);
      P.StepKeeps(old(s), P.Modify(p, maxPerPublish));
    }
  }

  /**
   * `handlePublish`: a pending status change answers the request, or the lack of any subscription does, or the
   * first of the session's subscriptions (by priority) that is late and has something to send; otherwise the
   * request waits. It is one step of the session, and at most one subscription answers: no subscription that waits
   * for a request is passed over.
   */
  method HandlePublish(session: S.Session, subs: seq<Subscription>, r: S.Request, statusPending: bool,
                       noneOnServer: bool, kept: nat -> seq<Value>, current: nat -> Value)
    returns (outcome: S.Outcome, ghost chosen: nat)
    requires forall i :: 0 <= i < |subs| ==> P.Inv(subs[i].s) && subs[i].s.live
    requires forall i, j :: 0 <= i < j < |subs| ==> subs[i] != subs[j]
    modifies session, subs
    ensures session.Contents() == S.Step(old(session.Contents()), S.Arrive(r, outcome))
    ensures forall i :: 0 <= i < |subs| ==> P.Inv(subs[i].s) && subs[i].s.live
    ensures outcome == S.ChangePending <==> statusPending
    ensures outcome == S.NoneOnServer <==> !statusPending && noneOnServer
    ensures outcome == S.LateSubscription ==> chosen < |subs| && old(subs[chosen].s).late
    ensures outcome == S.Wait ==> forall i :: 0 <= i < |subs| ==> !L.Waits(old(subs[i].s))
    ensures outcome == S.LateSubscription ==> forall i :: 0 <= i < chosen ==> !L.Waits(old(subs[i].s))
    ensures forall i :: 0 <= i < |subs| ==>
              |subs[i].s.responses|
              == |old(subs[i].s).responses| + (if outcome == S.LateSubscription && i == chosen then 1 else 0)
  {
    hide P.Inv, P.Effect, P.Allowed, S.Add, L.Waits, L.HasData, L.KeepAliveDue;
    chosen := 0;
    var request := r.(number := session.received);
    session.received := session.received + 1;
    if statusPending {
      session.WriteAnswer(request, S.StatusChange);
      return S.ChangePending, 0;
    }
    if noneOnServer {
      session.WriteAnswer(request, S.NoSubscription);
      return S.NoneOnServer, 0;
    }
    for i := 0 to |subs|
      invariant session.Contents() == old(session.Contents()).(received := old(session.received) + 1)
      invariant forall k :: 0 <= k < |subs| ==> P.Inv(subs[k].s) && subs[k].s.live
      invariant forall k :: 0 <= k < |subs| ==> |subs[k].s.responses| == |old(subs[k].s).responses|
      invariant forall k :: i <= k < |subs| ==> subs[k].s == old(subs[k].s)
      invariant forall k :: 0 <= k < i ==> !L.Waits(old(subs[k].s))
    {
      ghost var before := subs[i].s;
      var handled, a := subs[i].HandleLatePublishRequest(session, request, kept, current);
      P.RespondsOnce(before, a);
      if handled {
        return S.LateSubscription, i;
      }
    }
    session.AddPublishRequest(request);
    return S.Wait, 0;
  }

  /**
   * A tick, and then a publish request: if the tick wanted to publish and found no request, the late subscription
   * answers this one at once.
   */
  method TickThenRequest(session: S.Session, sub: Subscription, now: int, r: S.Request, kept: nat -> seq<Value>,
                         current: nat -> Value)
    returns (outcome: S.Outcome, ghost tick: P.Action)
    requires P.Inv(sub.s) && sub.s.live
    modifies session, sub
    ensures tick.Publish? && P.Allowed(old(sub.s), tick) && tick.c.kept == kept
    ensures L.Due(old(sub.s), tick.c) && S.Removed(old(session.queue), now).None? && sub.s.live ==>
              && outcome == S.LateSubscription && |sub.s.responses| == |old(sub.s).responses| + 1
              && session.answered != [] && session.answered[|session.answered| - 1].reply == S.Publication
              && session.answered[|session.answered| - 1].request == r.(number := old(session.received))
  {
    hide P.Inv, P.Effect, P.Allowed, S.Add, L.Waits, S.Removed, S.Remove;
    outcome := S.Wait;
    tick := sub.Publish(session, now, kept, current);
    if sub.s.live {
      if L.Due(old(sub.s), tick.c) && !tick.request {
        L.UnansweredTickWaits(old(sub.s), tick);
        L.TickIs(old(sub.s), tick);
      }
      var subs := [sub];
      assert subs[0] == sub;
      ghost var first;
      outcome, first := HandlePublish(session, subs, r, false, false, kept, current);
      assert subs[0].s == sub.s;
    }
  }
}
