/**
 * What the service calls of a client leave behind (OPC UA Part 4, sections 5.12 and 5.13): how long a subscription
 * lives, whose settings hold, which events an item accepts, and when keep-alives are sent; over whole runs.
 */
module Services {
  import opened Arith
  import opened Bytes
  import M = MonitoredItems
  import opened Notifications
  import opened Publishing
  import opened Lateness
  import Revision

  // ------------------------------------------------------------------ lifetime

  /** The client calls a service that shows that it is alive. */
  predicate Heard(a: Action)
  {
    || a.Republish? || a.Modify? || a.SetPublishingMode? || a.AddItem? || a.DeleteItem?
    || a.SetMonitoringMode? || a.Modifies? || a.SetTriggering?
  }

  /** A publish request is answered. */
  predicate Responds(s: Sub, a: Action)
  {
    |Effect(s, a).responses| > |s.responses|
  }

  lemma OtherLifetime(s: Sub, a: Action)
    requires s.live && !a.Publish? && !a.LateRequest?
    ensures Effect(s, a).lifetime == if Heard(a) then 0 else s.lifetime
    ensures Effect(s, a).live <==> !a.Delete?
    ensures Effect(s, a).timeouts == s.timeouts
  {
    hide Find, RemoveAt, ItemEffect;
    ItemEffectFrame(s, a);
    ItemLifetime(s, a);
  }

  lemma ItemLifetime(s: Sub, a: Action)
    ensures var s' := ItemEffect(s, a);
            (s'.lifetime == if Heard(a) && !a.Republish? && !a.Modify? && !a.SetPublishingMode? then 0 else s.lifetime)
  {
    hide SetTriggered, Accept, SetMode, ModifyItem;
  }

  lemma LateLifetime(s: Sub, a: Action)
    requires s.live && a.LateRequest?
    ensures Effect(s, a).lifetime == if Responds(s, a) then 0 else s.lifetime
    ensures Effect(s, a).live && Effect(s, a).timeouts == s.timeouts
  {
    hide Numbers, Trimmed;
  }

  /** The lifetime counts the ticks that wanted to publish and found no request, until the client is heard of again. */
  lemma LifetimeStep(s: Sub, a: Action)
    requires Inv(s) && s.live && Allowed(s, a) && Effect(s, a).live
    ensures Effect(s, a).lifetime
            == if Heard(a) || Responds(s, a) then 0 else if Unanswered(s, a) then s.lifetime + 1 else s.lifetime
  {
    hide Inv, Effect, Allowed;
    if a.Publish? {
      TickIs(s, a);
    } else if a.LateRequest? {
      LateLifetime(s, a);
    } else {
      OnlyTicksChangeLate(s, a);
      OtherLifetime(s, a);
    }
  }

  /** A subscription ends when it is deleted, or with a status change when its lifetime has run out. */
  lemma EndStep(s: Sub, a: Action)
    requires Inv(s) && s.live && Allowed(s, a)
    ensures var s', expires := Effect(s, a), Unanswered(s, a) && s.lifetime + 1 == s.maxLifetime;
            && (s'.live <==> !a.Delete? && !expires)
            && s'.timeouts == s.timeouts + (if expires then [s.next] else [])
            && (expires ==> s'.next == Inc32(s.next))
            && (!s'.live ==> s'.items == map[] && s'.queue == [] && s'.responses == s.responses)
  {
    hide Numbers, Trimmed, Possible, Queued, Booked, Find, RemoveAt, ItemEffect;
    if a.Publish? || a.LateRequest? {
      assert s.timeouts + [] == s.timeouts;
    } else {
      OnlyTicksChangeLate(s, a);
      OtherLifetime(s, a);
      assert s.timeouts + [] == s.timeouts;
    }
  }

  /** The ticks of a run that wanted to publish and found no request, since the client was last heard of. */
  ghost function Silence(s: Sub, acts: seq<Action>): (n: nat)
  {
    if acts == [] then 0
    else
      var s1, a := Run(s, acts[..|acts| - 1]), acts[|acts| - 1];
      if Heard(a) || Responds(s1, a) then 0
      else Silence(s, acts[..|acts| - 1]) + if Unanswered(s1, a) then 1 else 0
  }

  /** The `k`-th action does not delete the subscription, nor let its lifetime, as it then is, run out. */
  ghost predicate SurvivesAt(s: Sub, acts: seq<Action>, k: nat)
    requires k < |acts|
  {
    !acts[k].Delete? && Silence(s, acts[..k + 1]) < Run(s, acts[..k]).maxLifetime
  }

  ghost predicate Survived(s: Sub, acts: seq<Action>)
  {
    forall k :: 0 <= k < |acts| ==> SurvivesAt(s, acts, k)
  }

  lemma SurvivedFront(s: Sub, acts: seq<Action>, k: nat)
    requires k < |acts| - 1
    ensures SurvivesAt(s, acts[..|acts| - 1], k) <==> SurvivesAt(s, acts, k)
  {
    hide Run, Silence;
    var front := acts[..|acts| - 1];
    assert front[..k] == acts[..k] && front[..k + 1] == acts[..k + 1] && front[k] == acts[k];
  }

  lemma SurvivedNext(s: Sub, acts: seq<Action>)
    requires acts != []
    ensures var n := |acts| - 1;
            Survived(s, acts) <==>
              && Survived(s, acts[..n])
              && !acts[n].Delete? && Silence(s, acts) < Run(s, acts[..n]).maxLifetime
  {
    hide Run, Silence;
    var n := |acts| - 1;
    assert acts[..n + 1] == acts;
    assert SurvivesAt(s, acts, n) <==> !acts[n].Delete? && Silence(s, acts) < Run(s, acts[..n]).maxLifetime;
    hide SurvivesAt;
    forall k | 0 <= k < n
      ensures SurvivesAt(s, acts[..n], k) <==> SurvivesAt(s, acts, k)
    {
      SurvivedFront(s, acts, k);
    }
  }

  /**
   * In every run: the lifetime is the client's silence, and the subscription lives exactly as long as it was not
   * deleted and the silence never reached the lifetime count in force.
   */
  lemma {:induction false} LivesIff(s: Sub, acts: seq<Action>)
    requires Inv(s) && s.live && s.lifetime == 0 && AllowedRun(s, acts)
    ensures Inv(Run(s, acts))
    ensures Run(s, acts).live ==> Run(s, acts).lifetime == Silence(s, acts)
    ensures Run(s, acts).live <==> Survived(s, acts)
    decreases |acts|
  {
    hide Inv, Effect, Allowed, Unanswered, Responds, Survived;
    if acts == [] {
      SurvivedNothing(s);
    } else {
      var n := |acts| - 1;
      var s1, a := Run(s, acts[..n]), acts[n];
      LivesIff(s, acts[..n]);
      StepKeeps(s1, a);
      SurvivedNext(s, acts);
      if s1.live {
        EndStep(s1, a);
        Counts(s1, a);
        if Effect(s1, a).live {
          LifetimeStep(s1, a);
        }
      } else {
        StaysDead(s1, a);
      }
    }
  }

  lemma SurvivedNothing(s: Sub)
    ensures Survived(s, [])
  {
  }

  /** What counts against the lifetime, when the client is not heard of. */
  lemma Counts(s: Sub, a: Action)
    requires Inv(s) && s.live && Allowed(s, a)
    ensures s.lifetime < s.maxLifetime && (Unanswered(s, a) ==> !Heard(a) && !Responds(s, a))
    ensures a.Delete? ==> !Heard(a)
  {
    hide Effect, Possible, Queued, Booked;
    if a.Publish? {
      TickIs(s, a);
    }
  }

  // ------------------------------------------------------------------ settings of the subscription

  /** Which service changes which setting; a tick does what ResendData asked for. */
  lemma SettingStep(s: Sub, a: Action)
    requires s.live
    ensures var s' := Effect(s, a);
            && s'.maxLifetime == (if a.Modify? then a.p.lifetime else s.maxLifetime)
            && s'.maxKeepAlive == (if a.Modify? then a.p.keepAlive else s.maxKeepAlive)
            && s'.maxPerPublish == (if a.Modify? then MaxPerPublish(a.maxPerPublish) else s.maxPerPublish)
            && s'.enabled == (if a.SetPublishingMode? then a.enabled else s.enabled)
            && s'.resend == (a.ResendData? || (s.resend && !a.Publish?))
  {
    hide Published, LatePublished, Find, RemoveAt, ItemEffect;
    CycleSettings(s, a);
    ItemEffectFrame(s, a);
  }

  lemma CycleSettings(s: Sub, a: Action)
    ensures a.Publish? ==> SameSettings(s, Published(s, a.c, a.request)) && !Published(s, a.c, a.request).resend
    ensures a.LateRequest? ==> SameSettings(s, LatePublished(s, a.c)) && LatePublished(s, a.c).resend == s.resend
  {
    hide Numbers, Trimmed;
  }

  predicate SameSettings(s: Sub, s': Sub)
  {
    && s'.maxLifetime == s.maxLifetime && s'.maxKeepAlive == s.maxKeepAlive && s'.maxPerPublish == s.maxPerPublish
    && s'.enabled == s.enabled
    && s'.requests - s.requests == |s'.responses| - |s.responses|
  }

  /** Parameters as a client asked for them last. */
  datatype Settings = Settings(p: Revision.Parameters, maxPerPublish: u32, enabled: bool)

  function LastSettings(first: Settings, acts: seq<Action>): (r: Settings)
  {
    if acts == [] then first
    else
      var r := LastSettings(first, acts[..|acts| - 1]);
      match acts[|acts| - 1]
      case Modify(p, max) => r.(p := p, maxPerPublish := max)
      case SetPublishingMode(enabled) => r.(enabled := enabled)
      case _ => r
  }

  /** ResendData was called, and no tick has come since. */
  ghost predicate ResendAsked(acts: seq<Action>)
  {
    exists k :: 0 <= k < |acts| && acts[k].ResendData? && forall j :: k < j < |acts| ==> !acts[j].Publish?
  }

  lemma ResendAskedNext(acts: seq<Action>)
    requires acts != []
    ensures var n := |acts| - 1;
            ResendAsked(acts) <==> acts[n].ResendData? || (ResendAsked(acts[..n]) && !acts[n].Publish?)
  {
    var n := |acts| - 1;
    var front := acts[..n];
    assert forall k :: 0 <= k < n ==> front[k] == acts[k];
    if ResendAsked(front) && !acts[n].Publish? {
      var k :| 0 <= k < n && front[k].ResendData? && forall j :: k < j < n ==> !front[j].Publish?;
      assert acts[k].ResendData? && forall j :: k < j < |acts| ==> !acts[j].Publish?;
    }
    if ResendAsked(acts) && !acts[n].ResendData? {
      var k :| 0 <= k < |acts| && acts[k].ResendData? && forall j :: k < j < |acts| ==> !acts[j].Publish?;
      assert front[k].ResendData?;
    }
  }

  /** In every run a live subscription goes by what the client asked for last. */
  lemma {:induction false} SettingsAre(first: Settings, acts: seq<Action>)
    ensures var s := Run(New(first.p, first.maxPerPublish, first.enabled), acts);
            var last := LastSettings(first, acts);
            s.live ==>
              && s.maxLifetime == last.p.lifetime && s.maxKeepAlive == last.p.keepAlive && s.enabled == last.enabled
              && s.maxPerPublish == (if last.maxPerPublish == 0 then 0x7FFF_FFFF else last.maxPerPublish)
              && (s.resend <==> ResendAsked(acts))
    decreases |acts|
  {
    if acts == [] {
      assert !ResendAsked(acts);
    } else {
      hide Effect, ResendAsked;
      var n := |acts| - 1;
      var s1 := Run(New(first.p, first.maxPerPublish, first.enabled), acts[..n]);
      SettingsAre(first, acts[..n]);
      ResendAskedNext(acts);
      if s1.live {
        SettingStep(s1, acts[n]);
      } else {
        StaysDead(s1, acts[n]);
      }
    }
  }

  // ------------------------------------------------------------------ answers

  lemma RequestsStep(s: Sub, a: Action)
    ensures Effect(s, a).requests - s.requests == |Effect(s, a).responses| - |s.responses|
  {
    hide Published, LatePublished, Find, RemoveAt, ItemEffect;
    CycleSettings(s, a);
    ItemEffectFrame(s, a);
  }

  lemma {:induction false} RequestsAre(s: Sub, acts: seq<Action>)
    ensures Run(s, acts).requests - s.requests == |Run(s, acts).responses| - |s.responses|
    decreases |acts|
  {
    hide Effect;
    if acts != [] {
      RequestsAre(s, acts[..|acts| - 1]);
      RequestsStep(Run(s, acts[..|acts| - 1]), acts[|acts| - 1]);
    }
  }

  /** So every subscription lives from its creation as long as the client is heard of, and is late only by its ticks. */
  lemma FromCreation(first: Settings, acts: seq<Action>)
    requires Revision.Revised(first.p) && AllowedRun(New(first.p, first.maxPerPublish, first.enabled), acts)
    ensures var s0 := New(first.p, first.maxPerPublish, first.enabled);
            var s := Run(s0, acts);
            && (s.live <==> Survived(s0, acts))
            && (s.live ==> (s.late <==> exists i: nat :: LateSince(s0, acts, i)))
  {
    hide Inv, Run, AllowedRun, Survived, LateSince, Revision.Revised;
    var s0 := New(first.p, first.maxPerPublish, first.enabled);
    StartsWell(first.p, first.maxPerPublish, first.enabled);
    LivesIff(s0, acts);
    if Run(s0, acts).live {
      LateIff(s0, acts);
    }
  }

  /** A new subscription answers at the first tick that finds a publish request, whatever happened before. */
  lemma FirstTickAnswers(first: Settings, acts: seq<Action>, a: Action)
    requires var s0 := New(first.p, first.maxPerPublish, first.enabled);
             && Revision.Revised(first.p) && AllowedRun(s0, acts + [a])
             && Run(s0, acts).live && Run(s0, acts).responses == [] && a.Publish? && a.request
    ensures |Run(New(first.p, first.maxPerPublish, first.enabled), acts + [a]).responses| == 1
  {
    hide Inv, Effect, Allowed, Revision.Revised;
    var s0 := New(first.p, first.maxPerPublish, first.enabled);
    assert (acts + [a])[..|acts|] == acts;
    RunKeeps(first.p, first.maxPerPublish, first.enabled, acts);
    RequestsAre(s0, acts);
    TickIs(Run(s0, acts), a);
  }

  /** A tick that finds a publish request but no notifications to send. */
  predicate Quiet(s: Sub, a: Action)
  {
    a.Publish? && a.request && !HasData(s, a.c)
  }

  /** While nothing happens, exactly every `maxKeepAlive`-th tick after a response brings a keep-alive. */
  lemma {:induction false} Cadence(s: Sub, acts: seq<Action>)
    requires Inv(s) && s.live && s.keepAlive == 0 && s.requests > 0 && s.requests == |s.responses|
    requires AllowedRun(s, acts) && forall k :: 0 <= k < |acts| ==> Quiet(s, acts[k])
    ensures var s', n := Run(s, acts), |acts|;
            && Inv(s') && s'.live && s'.maxKeepAlive == s.maxKeepAlive && s'.enabled == s.enabled
            && |s'.responses| == |s.responses| + n / s.maxKeepAlive && s'.keepAlive == n % s.maxKeepAlive
            && s'.sent == s.sent && s'.next == s.next
    decreases |acts|
  {
    hide Inv, Effect, Allowed;
    Positive(s);
    var k := s.maxKeepAlive;
    if acts != [] {
      var n := |acts| - 1;
      var s1, a := Run(s, acts[..n]), acts[n];
      Cadence(s, acts[..n]);
      RequestsAre(s, acts[..n]);
      assert Quiet(s, a);
      TickIs(s1, a);
      StepKeeps(s1, a);
      SettingStep(s1, a);
      QuietSends(s1, a);
      NextRemainder(n, k);
    } else {
      assert 0 / k == 0 && 0 % k == 0;
    }
  }

  lemma Positive(s: Sub)
    requires Inv(s)
    ensures s.maxKeepAlive >= 1
  {
  }

  lemma QuietSends(s: Sub, a: Action)
    requires s.live && Quiet(s, a)
    ensures Effect(s, a).sent == s.sent && Effect(s, a).next == s.next
  {
    hide Numbers;
  }

  lemma NextRemainder(n: nat, k: nat)
    requires k >= 1
    ensures n % k + 1 >= k ==> (n + 1) / k == n / k + 1 && (n + 1) % k == 0
    ensures n % k + 1 < k ==> (n + 1) / k == n / k && (n + 1) % k == n % k + 1
  {
    DivMod(n, k);
    if n % k + 1 >= k {
      DivModIs(n + 1, k, n / k + 1, 0);
    } else {
      DivModIs(n + 1, k, n / k, n % k + 1);
    }
  }

  /** Each message and the status change at the end use up one number. */
  lemma {:induction false} NumbersUsed(first: Settings, acts: seq<Action>)
    requires Revision.Revised(first.p) && AllowedRun(New(first.p, first.maxPerPublish, first.enabled), acts)
    ensures var s := Run(New(first.p, first.maxPerPublish, first.enabled), acts);
            |s.sent| < U32_LIMIT - 2 ==>
              && |s.timeouts| <= 1 && s.next == |s.sent| + |s.timeouts| + 1
              && (s.timeouts != [] ==> !s.live && s.timeouts[0] == |s.sent| + 1)
    decreases |acts|
  {
    hide Inv, Effect, Allowed, Revision.Revised, Unanswered;
    if acts != [] {
      var n := |acts| - 1;
      var s0 := New(first.p, first.maxPerPublish, first.enabled);
      var s1, a := Run(s0, acts[..n]), acts[n];
      NumbersUsed(first, acts[..n]);
      RunKeeps(first.p, first.maxPerPublish, first.enabled, acts[..n]);
      RunKeeps(first.p, first.maxPerPublish, first.enabled, acts);
      SentGrows(s1, a);
      if s1.live {
        EndStep(s1, a);
        LiveNumber(s1);
        LiveNumber(Effect(s1, a));
        if !Effect(s1, a).live {
          LastSent(s1, a);
        }
      } else {
        DeadStep(s1, a);
      }
    }
  }

  lemma SentGrows(s: Sub, a: Action)
    ensures |s.sent| <= |Effect(s, a).sent|
  {
    hide Numbers, Trimmed, Find, RemoveAt, ItemEffect;
    ItemEffectFrame(s, a);
  }

  lemma LiveNumber(s: Sub)
    requires Inv(s)
    ensures s.live && |s.sent| < U32_LIMIT - 1 ==> s.next == |s.sent| + 1
  {
  }

  lemma LastSent(s: Sub, a: Action)
    requires s.live && !Effect(s, a).live
    ensures Effect(s, a).sent == s.sent && (a.Delete? ==> Effect(s, a).next == s.next)
  {
    hide Numbers, Trimmed, Find, RemoveAt, ItemEffect;
    ItemEffectFrame(s, a);
  }

  // ------------------------------------------------------------------ after the end

  lemma DeadStep(s: Sub, a: Action)
    requires !s.live
    ensures Effect(s, a)
            == s.(keepAlive := s.keepAlive + Ticks([a]), resend := s.resend && Ticks([a]) == 0)
  {
    assert Ticks([a]) == (if a.Publish? then 1 else 0) by {
      assert [a][..0] == [];
    }
  }

  /** A subscription that has ended says nothing and changes nothing: only its ticks are still counted. */
  lemma {:induction false} DeadRun(s: Sub, acts: seq<Action>)
    requires !s.live
    ensures Run(s, acts) == s.(keepAlive := s.keepAlive + Ticks(acts), resend := s.resend && Ticks(acts) == 0)
    decreases |acts|
  {
    hide Effect;
    if acts != [] {
      var front, a := acts[..|acts| - 1], acts[|acts| - 1];
      DeadRun(s, front);
      DeadStep(Run(s, front), a);
      assert [a][..0] == [];
    }
  }

  // ------------------------------------------------------------------ settings of the items

  /** The queue size of an event item is always the largest. */
  function SizeAsked(kind: Kind, requested: nat): (size: nat)
  {
    match kind
    case EventKind => 1024
    case DataChangeKind => M.RevisedSize(requested)
  }

  /** Which service changes which setting of item `id`. */
  ghost predicate ItemSet(a: Action, id: nat, m: Item, m': Item)
  {
    && m'.kind == m.kind
    && m'.mode == (if a.SetMonitoringMode? && a.id == id then a.mode else m.mode)
    && m'.links == (if a.SetTriggering? && a.id == id then a.links else m.links)
    && (if a.Modifies? && a.id == id
        then m'.handle == a.handle && m'.size == SizeAsked(m.kind, a.size) && m'.discardOldest == a.discardOldest
        else m'.handle == m.handle && m'.size == m.size && m'.discardOldest == m.discardOldest)
  }

  /** An item stays until it is deleted, and its settings are those last asked for. */
  lemma ItemStep(s: Sub, a: Action, id: nat)
    requires Inv(s) && s.live && Allowed(s, a) && Effect(s, a).live && id in s.items
    ensures id in Effect(s, a).items <==> a != DeleteItem(id)
    ensures id in Effect(s, a).items ==> ItemSet(a, id, s.items[id], Effect(s, a).items[id])
  {
    hide Inv, Effect, Allowed, ItemEffect, ItemSet;
    if a.Publish? || (a.LateRequest? && s.late) {
      CycleItemSet(s, a, id);
    } else {
      OtherItems(s, a);
      GivenOut(s, a, id);
      ItemEffectSet(s, a, id);
    }
  }

  /** Only cycles and the services on items change items. */
  lemma OtherItems(s: Sub, a: Action)
    requires s.live && Effect(s, a).live && !a.Publish? && !(a.LateRequest? && s.late)
    ensures Effect(s, a).items == ItemEffect(s, a).items
  {
    hide Find, RemoveAt, SetTriggered, Accept, SetMode, ModifyItem;
  }

  lemma GivenOut(s: Sub, a: Action, id: nat)
    requires Inv(s) && s.live && Allowed(s, a) && id in s.items
    ensures a.AddItem? ==> a.id != id
    ensures var m := s.items[id]; 1 <= m.size && |m.queue| <= m.size && (m.mode == M.Disabled ==> m.queue == [])
  {
    hide Delivered, Queued, Timed, Increasing, NonEmpty;
  }

  lemma ItemEffectSet(s: Sub, a: Action, id: nat)
    requires id in s.items && (a.AddItem? ==> a.id != id)
    ensures id in ItemEffect(s, a).items <==> a != DeleteItem(id)
    ensures id in ItemEffect(s, a).items ==> ItemSet(a, id, s.items[id], ItemEffect(s, a).items[id])
  {
    hide ItemEffect, ItemSet;
    if a.OnEvent? {
      EventSet(s, a, id);
    } else {
      ServiceSet(s, a, id);
    }
  }

  lemma EventSet(s: Sub, a: Action, id: nat)
    requires id in s.items && a.OnEvent?
    ensures id in ItemEffect(s, a).items && ItemSet(a, id, s.items[id], ItemEffect(s, a).items[id])
  {
    hide Accept;
    if a.id in s.items {
      OneItemSet(s.items[a.id], a);
    }
  }

  lemma ServiceSet(s: Sub, a: Action, id: nat)
    requires id in s.items && !a.OnEvent? && (a.AddItem? ==> a.id != id)
    ensures id in ItemEffect(s, a).items <==> a != DeleteItem(id)
    ensures id in ItemEffect(s, a).items ==> ItemSet(a, id, s.items[id], ItemEffect(s, a).items[id])
  {
    hide SetMode, ModifyItem, SizeOf;
    if (a.SetMonitoringMode? || a.Modifies?) && a.id == id {
      OneItemSet(s.items[id], a);
    }
  }

  /** What the operations on an item make of its settings and of its log. */
  lemma OneItemSet(m: Item, a: Action)
    ensures a.OnEvent? && m.size >= 1 ==>
              var m' := Accept(m, a.id, Fields(a.fields));
              m' == m.(queue := m'.queue, log := m'.log, discarded := m'.discarded)
    ensures a.SetMonitoringMode? ==>
              var m' := SetMode(m, a.mode);
              ItemSet(a, a.id, m, m') && m'.log == m.log && m'.triggered == m.triggered
    ensures a.Modifies? ==>
              var m' := ModifyItem(m, a.handle, a.size, a.discardOldest);
              ItemSet(a, a.id, m, m') && m'.log == m.log && m'.triggered == m.triggered
  {
    hide Trimmings, Overflow, M.Enqueue, M.Trim;
  }

  lemma SampledSettings(m: Item, id: nat, c: Samples)
    requires 1 <= m.size && |m.queue| <= m.size
    ensures var r := Sampled(m, id, c);
            r == m.(queue := r.queue, log := r.log, discarded := r.discarded)
  {
    hide AcceptAll, M.Survivors, M.Enqueue, Overflow, Entries;
    AcceptAllSurvivors(m, id, c.kept(id));
  }

  lemma CycleItemSet(s: Sub, a: Action, id: nat)
    requires Inv(s) && s.live && Allowed(s, a) && Effect(s, a).live && id in s.items
    requires a.Publish? || (a.LateRequest? && s.late)
    ensures id in Effect(s, a).items && ItemSet(a, id, s.items[id], Effect(s, a).items[id])
  {
    hide Effect, Delivered, Increasing, Sampled, TriggeredBy, Of, Addressed, Queued, Timed;
    var c := Samples(a.c.kept, a.Publish? && s.resend, a.c.current);
    CycleItems(s, a);
    SampledSettings(s.items[id], id, c);
    assert a.c.refreshed[id] == Sampled(s.items[id], id, c).(triggered := a.c.refreshed[id].triggered);
  }

  // ------------------------------------------------------------------ queues between the ticks

  /** What is left of a queue that is cut down: the newest entries, or the oldest. */
  predicate CutDown(q: seq<Entry>, q': seq<Entry>, size: nat, discardOldest: bool)
  {
    && |q'| == (if |q| <= size then |q| else size)
    && q' == if discardOldest then q[|q| - |q'|..] else q[..|q'|]
  }

  /** Between ticks only an event, a change of the queue size or disabling the item changes its queue. */
  ghost predicate QueueSet(a: Action, id: nat, m: Item, m': Item)
  {
    match a
    case OnEvent(k, fields) =>
      m'.queue
      == if k == id && m.kind == EventKind && m.mode != M.Disabled && m.size >= 1
         then M.Survivors(m.queue + [Entry(id, |m.log|, Fields(fields))], m.size, m.discardOldest)
         else m.queue
    case Modifies(k, _, _, discardOldest) =>
      if k == id then CutDown(m.queue, m'.queue, m'.size, discardOldest) else m'.queue == m.queue
    case SetMonitoringMode(k, mode) => m'.queue == if k == id && mode == M.Disabled then [] else m.queue
    case _ => m'.queue == m.queue
  }

  lemma QueueStep(s: Sub, a: Action, id: nat)
    requires Inv(s) && s.live && Allowed(s, a) && Effect(s, a).live && id in s.items && id in Effect(s, a).items
    requires !a.Publish? && !(a.LateRequest? && s.late)
    ensures QueueSet(a, id, s.items[id], Effect(s, a).items[id])
  {
    hide Inv, Effect, Allowed, ItemEffect, QueueSet;
    OtherItems(s, a);
    GivenOut(s, a, id);
    ItemQueueSet(s, a, id);
  }

  lemma ItemQueueSet(s: Sub, a: Action, id: nat)
    requires id in s.items && id in ItemEffect(s, a).items && (a.AddItem? ==> a.id != id)
    requires var m := s.items[id]; |m.queue| <= m.size && (m.mode == M.Disabled ==> m.queue == [])
    ensures QueueSet(a, id, s.items[id], ItemEffect(s, a).items[id])
  {
    hide Accept, SetMode, ModifyItem, CutDown, M.Survivors;
    if (a.OnEvent? || a.SetMonitoringMode? || a.Modifies?) && a.id == id {
      OneQueueSet(s.items[id], a);
    }
  }

  lemma OneQueueSet(m: Item, a: Action)
    requires |m.queue| <= m.size && (m.mode == M.Disabled ==> m.queue == [])
    ensures a.OnEvent? && m.size >= 1 ==>
              Accept(m, a.id, Fields(a.fields)).queue
              == M.Survivors(m.queue + [Entry(a.id, |m.log|, Fields(a.fields))], m.size, m.discardOldest)
    ensures a.SetMonitoringMode? ==> QueueSet(a, a.id, m, SetMode(m, a.mode))
    ensures a.Modifies? ==> QueueSet(a, a.id, m, ModifyItem(m, a.handle, a.size, a.discardOldest))
  {
    hide Trimmings, Overflow, SizeOf;
  }

  // ------------------------------------------------------------------ events

  /** The events that reached item `id` while it was not disabled. */
  ghost function Arrived(s: Sub, acts: seq<Action>, id: nat): (vs: seq<Value>)
  {
    if acts == [] then []
    else
      var s1, a := Run(s, acts[..|acts| - 1]), acts[|acts| - 1];
      Arrived(s, acts[..|acts| - 1], id)
      + if a.OnEvent? && a.id == id && id in s1.items && s1.items[id].mode != M.Disabled then [Fields(a.fields)] else []
  }

  lemma EventStep(s: Sub, a: Action, id: nat)
    requires Inv(s) && s.live && Allowed(s, a) && id in s.items && s.items[id].kind == EventKind
    ensures id in Effect(s, a).items && Effect(s, a).live ==>
              Values(Effect(s, a).items[id].log)
              == Values(s.items[id].log)
                 + if a.OnEvent? && a.id == id && s.items[id].mode != M.Disabled then [Fields(a.fields)] else []
  {
    hide Effect, Inv, Allowed, ItemEffect, Values;
    assert Values(s.items[id].log) + [] == Values(s.items[id].log);
    if Effect(s, a).live {
      GivenOut(s, a, id);
      if a.Publish? || (a.LateRequest? && s.late) {
        CycleSkipsEvents(s, a, id);
      } else {
        OtherItems(s, a);
        ItemEffectLog(s, a, id);
      }
    }
  }

  lemma CycleSkipsEvents(s: Sub, a: Action, id: nat)
    requires Inv(s) && s.live && Allowed(s, a) && Effect(s, a).live && id in s.items && s.items[id].kind == EventKind
    requires a.Publish? || (a.LateRequest? && s.late)
    ensures id in Effect(s, a).items && Effect(s, a).items[id].log == s.items[id].log
  {
    hide Effect, Inv, AcceptAll, Accept, TriggeredBy, Of, Addressed;
    CycleItems(s, a);
  }

  lemma ItemEffectLog(s: Sub, a: Action, id: nat)
    requires id in s.items && s.items[id].kind == EventKind && s.items[id].size >= 1 && (a.AddItem? ==> a.id != id)
    ensures id in ItemEffect(s, a).items ==>
              Values(ItemEffect(s, a).items[id].log)
              == Values(s.items[id].log)
                 + if a.OnEvent? && a.id == id && s.items[id].mode != M.Disabled then [Fields(a.fields)] else []
  {
    hide M.Enqueue, Overflow, SetMode, ModifyItem, ItemSet;
    var m := s.items[id];
    if (a.SetMonitoringMode? || a.Modifies?) && a.id == id {
      OneItemSet(m, a);
    }
    if a.OnEvent? && a.id == id && m.mode != M.Disabled {
      assert Values(Accept(m, id, Fields(a.fields)).log) == Values(m.log) + [Fields(a.fields)];
    } else {
      hide Values;
      assert Values(m.log) + [] == Values(m.log);
    }
  }

  /** Over every run an event item has accepted exactly the events that reached it while it was not disabled. */
  lemma {:induction false} EventsAreAccepted(s: Sub, acts: seq<Action>, id: nat)
    requires Inv(s) && s.live && AllowedRun(s, acts) && id in s.items && s.items[id].kind == EventKind
    requires Run(s, acts).live && forall k :: 0 <= k < |acts| ==> acts[k] != DeleteItem(id)
    ensures Inv(Run(s, acts)) && id in Run(s, acts).items && Run(s, acts).items[id].kind == EventKind
    ensures Values(Run(s, acts).items[id].log) == Values(s.items[id].log) + Arrived(s, acts, id)
    decreases |acts|
  {
    hide Inv, Effect, Allowed, Values, ItemSet;
    if acts != [] {
      var n := |acts| - 1;
      var s1, a := Run(s, acts[..n]), acts[n];
      if !s1.live {
        StaysDead(s1, a);
      }
      EventsAreAccepted(s, acts[..n], id);
      StepKeeps(s1, a);
      ItemStep(s1, a, id);
      SameKind(s1, a, id);
      EventStep(s1, a, id);
    }
  }

  lemma SameKind(s: Sub, a: Action, id: nat)
    requires id in s.items && id in Effect(s, a).items && ItemSet(a, id, s.items[id], Effect(s, a).items[id])
    ensures Effect(s, a).items[id].kind == s.items[id].kind
  {
    hide Effect;
  }

  /** An event that an item accepts triggers the items it is linked to, and no event does more than that to others. */
  lemma EventElsewhere(s: Sub, id: nat, fields: seq<string>, k: nat)
    requires Inv(s) && s.live && k in s.items && k != id
    ensures var accepted := id in s.items && s.items[id].kind == EventKind && s.items[id].mode != M.Disabled;
            var items := Effect(s, OnEvent(id, fields)).items;
            && k in items
            && items[k] == s.items[k].(triggered := s.items[k].triggered || (accepted && k in s.items[id].links))
  {
    hide Accept, Inv;
    InvSound(s);
  }
}
