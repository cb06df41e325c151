/**
 * Late publishing (OPC UA Part 4, section 5.13.1): when a tick of the publishing interval answers a publish request,
 * when it makes the subscription late instead, and when a late subscription answers the next request at once.
 */
module Lateness {
  import opened Bytes
  import M = MonitoredItems
  import opened Notifications
  import opened Publishing

  /** Sampling at this tick finds notifications to publish. */
  predicate HasData(s: Sub, c: Cycle)
  {
    c.available && s.enabled
  }

  /** At this tick the subscription has something to say: notifications, or a keep-alive that is due. */
  predicate Due(s: Sub, c: Cycle)
  {
    HasData(s, c) || s.keepAlive + 1 >= s.maxKeepAlive || s.requests == 0
  }

  /** A keep-alive is due without another tick. */
  predicate KeepAliveDue(s: Sub)
  {
    s.keepAlive >= s.maxKeepAlive || s.requests == 0
  }

  /** The newest response carries notifications. */
  predicate LastHasData(s: Sub)
    requires s.responses != []
  {
    var m := s.responses[|s.responses| - 1].message;
    m.changes != [] || m.events != []
  }

  /**
   * What a tick does. It answers exactly when the subscription has something to say and a request waits, with
   * notifications exactly when there are some and publishing is enabled. A tick that finds no request then makes
   * the subscription late; one that had nothing to say does not change that.
   */
  lemma TickIs(s: Sub, a: Action)
    requires Inv(s) && s.live && a.Publish? && Allowed(s, a)
    ensures var s' := Effect(s, a);
            && |s'.responses| == |s.responses| + (if Due(s, a.c) && a.request then 1 else 0)
            && |s'.sent| == |s.sent| + (if HasData(s, a.c) && a.request then 1 else 0)
            && (|s'.responses| > |s.responses| ==> (LastHasData(s') <==> HasData(s, a.c)))
            && (s'.live ==> (s'.late <==> if Due(s, a.c) then !a.request else s.late))
            && (!s'.live ==> Due(s, a.c) && !a.request)
            && (s'.live ==> s'.lifetime == if !Due(s, a.c) then s.lifetime else if a.request then 0 else s.lifetime + 1)
            && (s'.live ==>
                s'.keepAlive == (if Due(s, a.c) && a.request then 0 else if HasData(s, a.c) then s.keepAlive
                                 else s.keepAlive + 1))
            && !s'.resend
  {
    hide Numbers, Trimmed, Possible, Queued, Booked;
    if HasData(s, a.c) && a.request {
      SendsNonEmpty(s, a.c, s.resend);
      CanGather(s, a.c, s.resend);
    }
  }

  /**
   * What a publish request does that arrives while none wait. A subscription that is late answers it with its
   * notifications, or with a keep-alive that is due, and is late no longer unless it announces more; in all other
   * cases the request is left alone.
   */
  lemma LateRequestIs(s: Sub, a: Action)
    requires Inv(s) && s.live && a.LateRequest? && Allowed(s, a)
    ensures var s' := Effect(s, a);
            && s'.live
            && (!s.late ==> s' == s)
            && (s.late ==>
                && |s'.responses| == |s.responses| + (if HasData(s, a.c) || KeepAliveDue(s) then 1 else 0)
                && |s'.sent| == |s.sent| + (if HasData(s, a.c) then 1 else 0)
                && (|s'.responses| > |s.responses| ==> (LastHasData(s') <==> HasData(s, a.c)))
                && (s'.late <==> if HasData(s, a.c) then s'.responses[|s.responses|].more else !KeepAliveDue(s)))
  {
    hide Numbers, Trimmed, Possible, Queued, Booked;
    if s.late && HasData(s, a.c) {
      SendsNonEmpty(s, a.c, false);
      CanGather(s, a.c, false);
    }
  }

  /** Nothing but ticks and late requests makes a subscription late or ends its being late. */
  lemma OnlyTicksChangeLate(s: Sub, a: Action)
    requires !a.Publish? && !a.LateRequest?
    ensures Effect(s, a).late == s.late && Effect(s, a).responses == s.responses
  {
    hide Find, RemoveAt, ItemEffect;
    ItemEffectFrame(s, a);
  }

  // ------------------------------------------------------------------ who answers at once

  /** Late, and with something to say that no further sample can take away. */
  predicate Waits(s: Sub)
  {
    s.live && s.late && ((s.enabled && exists id :: id in s.items && Ready(s.items[id])) || KeepAliveDue(s))
  }

  /** An item with values in its queue still has some after it was sampled. */
  lemma ReadyStays(m: Item, id: nat, c: Samples)
    requires m.size >= 1 && Ready(m)
    ensures Ready(Sampled(m, id, c).(triggered := m.triggered))
  {
    QueueStays(m, id, c.kept(id));
  }

  lemma {:induction false} QueueStays(m: Item, id: nat, vs: seq<Value>)
    requires m.size >= 1 && m.queue != []
    ensures AcceptAll(m, id, vs).queue != [] && AcceptAll(m, id, vs).mode == m.mode
    decreases |vs|
  {
    if vs != [] {
      QueueStays(Accept(m, id, vs[0]), id, vs[1..]);
    }
  }

  /** A subscription that waits answers the next publish request, whatever sampling brings and in whatever order. */
  lemma WaitingAnswers(s: Sub, a: Action)
    requires Inv(s) && Waits(s) && a.LateRequest? && Allowed(s, a)
    ensures |Effect(s, a).responses| == |s.responses| + 1
  {
    hide Inv, Effect, Sampled, TriggeredBy, Gathered;
    LateRequestIs(s, a);
    InvSound(s);
    if id :| s.enabled && id in s.items && Ready(s.items[id]) {
      ReadyStays(s.items[id], id, Samples(a.c.kept, false, a.c.current));
    }
  }

  /** A tick that has something to say and finds no request leaves a subscription that waits, if it still lives. */
  lemma UnansweredTickWaits(s: Sub, a: Action)
    requires Inv(s) && s.live && a.Publish? && Allowed(s, a) && Due(s, a.c) && !a.request && Effect(s, a).live
    ensures Waits(Effect(s, a))
  {
    hide Numbers, Trimmed, Queued, Booked, Gathered, Sampled, TriggeredBy;
    TickIs(s, a);
  }

  /**
   * A tick that wanted to publish and found no request, and a publish request right behind it: the request is
   * answered at once, with the notifications if there are any.
   */
  lemma AnsweredAtOnce(s: Sub, tick: Action, request: Action)
    requires Inv(s) && s.live && tick.Publish? && Allowed(s, tick) && Due(s, tick.c) && !tick.request
    requires Effect(s, tick).live && request.LateRequest? && Allowed(Effect(s, tick), request)
    ensures var s' := Effect(Effect(s, tick), request);
            && |s'.responses| == |s.responses| + 1
            && (HasData(s, tick.c) ==> LastHasData(s') && |s'.sent| == |s.sent| + 1)
  {
    hide Inv, Effect, Sampled, TriggeredBy, Gathered;
    var s1 := Effect(s, tick);
    StepKeeps(s, tick);
    TickIs(s, tick);
    UnansweredTickWaits(s, tick);
    WaitingAnswers(s1, request);
    LateRequestIs(s1, request);
    if HasData(s, tick.c) {
      UnansweredData(s, tick);
      InvSound(s1);
      var id :| id in s1.items && Ready(s1.items[id]);
      ReadyStays(s1.items[id], id, Samples(request.c.kept, false, request.c.current));
    }
  }

  lemma UnansweredData(s: Sub, a: Action)
    requires Inv(s) && s.live && a.Publish? && Allowed(s, a) && HasData(s, a.c) && !a.request && Effect(s, a).live
    ensures Effect(s, a).enabled && exists id :: id in Effect(s, a).items && Ready(Effect(s, a).items[id])
  {
    hide Numbers, Trimmed, Queued, Booked, Gathered, Sampled, TriggeredBy;
  }

  // ------------------------------------------------------------------ over whole runs

  /** A tick that wanted to publish and found no request. */
  predicate Unanswered(s: Sub, a: Action)
  {
    a.Publish? && Due(s, a.c) && !a.request
  }

  /** The action answers no request, or answers a late one and announces more. */
  predicate LeavesLate(s: Sub, a: Action)
  {
    var s' := Effect(s, a);
    |s'.responses| == |s.responses|
    || (a.LateRequest? && s'.responses != [] && s'.responses[|s'.responses| - 1].more)
  }

  lemma LateStep(s: Sub, a: Action)
    requires Inv(s) && s.live && Allowed(s, a) && Effect(s, a).live
    ensures Effect(s, a).late <==> Unanswered(s, a) || (s.late && LeavesLate(s, a))
  {
    if a.Publish? {
      hide Inv, Effect, Possible;
      TickIs(s, a);
    } else if a.LateRequest? {
      hide Numbers, Trimmed, Possible, Queued, Booked;
      LateRequestIs(s, a);
    } else {
      hide Inv, Effect, Allowed;
      OnlyTicksChangeLate(s, a);
    }
  }

  /** Since the `i`-th action, an unanswered tick, nothing has ended the subscription's being late. */
  ghost predicate LateSince(s: Sub, acts: seq<Action>, i: nat)
  {
    && i < |acts| && Unanswered(Run(s, acts[..i]), acts[i])
    && forall j :: i < j < |acts| ==> LeavesLate(Run(s, acts[..j]), acts[j])
  }

  lemma LateSinceNext(s: Sub, acts: seq<Action>, i: nat)
    requires acts != []
    ensures var n := |acts| - 1;
            LateSince(s, acts, i) <==>
              || (i == n && Unanswered(Run(s, acts[..n]), acts[n]))
              || (LateSince(s, acts[..n], i) && LeavesLate(Run(s, acts[..n]), acts[n]))
  {
    hide Run, LeavesLate, Unanswered;
    var n := |acts| - 1;
    var front := acts[..n];
    assert forall j :: 0 <= j < n ==> front[..j] == acts[..j] && front[j] == acts[j];
  }

  lemma StaysDead(s: Sub, a: Action)
    requires !s.live
    ensures !Effect(s, a).live
  {
  }

  /**
   * In every run a live subscription is late exactly when a tick that wanted to publish found no request and since
   * then no request was answered, late ones apart whose answer announced more.
   */
  lemma {:induction false} LateIff(s: Sub, acts: seq<Action>)
    requires Inv(s) && s.live && !s.late && AllowedRun(s, acts) && Run(s, acts).live
    ensures Inv(Run(s, acts)) && (Run(s, acts).late <==> exists i: nat :: LateSince(s, acts, i))
    decreases |acts|
  {
    hide Inv, Effect, LeavesLate, Unanswered, LateSince;
    if acts != [] {
      var n := |acts| - 1;
      var s1 := Run(s, acts[..n]);
      if !s1.live {
        StaysDead(s1, acts[n]);
      }
      LateIff(s, acts[..n]);
      StepKeeps(s1, acts[n]);
      LateStep(s1, acts[n]);
      forall i: nat
        ensures LateSince(s, acts, i) <==>
                  || (i == n && Unanswered(s1, acts[n]))
                  || (LateSince(s, acts[..n], i) && LeavesLate(s1, acts[n]))
      {
        LateSinceNext(s, acts, i);
      }
      assert LateSince(s, acts, n) <==>
        Unanswered(s1, acts[n]) || (LateSince(s, acts[..n], n) && LeavesLate(s1, acts[n]));
      if s1.late && LeavesLate(s1, acts[n]) {
        var i: nat :| LateSince(s, acts[..n], i);
        assert LateSince(s, acts, i);
      }
    } else {
      NeverSince(s);
    }
  }

  lemma NeverSince(s: Sub)
    ensures forall i: nat :: !LateSince(s, [], i)
  {
  }
}
