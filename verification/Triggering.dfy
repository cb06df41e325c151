/**
 * Triggering (OPC UA Part 4, section 5.12.1.6): an item that only samples reports once an item linked to it has
 * accepted something, until all it had queued is sent.
 */
module Triggering {
  import M = MonitoredItems
  import opened Notifications
  import opened Publishing
  import opened Lateness
  import opened Services

  predicate Cycles(s: Sub, a: Action)
  {
    a.Publish? || (a.LateRequest? && s.late)
  }

  /** In this action some item that links to item `id` accepts a sample or an event. */
  ghost predicate Triggers(s: Sub, a: Action, id: nat)
  {
    && AllSized(s.items)
    && if Cycles(s, a)
       then TriggeredBy(s.items, s.items.Keys, id, Samples(a.c.kept, a.Publish? && s.resend, a.c.current))
       else
         && a.OnEvent? && a.id in s.items && s.items[a.id].kind == EventKind && s.items[a.id].mode != M.Disabled
         && id in s.items[a.id].links
  }

  /** A message is sent that leaves nothing in the queue of item `id`. */
  predicate Spends(s: Sub, a: Action, id: nat)
  {
    var s' := Effect(s, a);
    |s'.sent| > |s.sent| && id in s'.items && s'.items[id].queue == []
  }

  lemma TriggeredStep(s: Sub, a: Action, id: nat)
    requires Inv(s) && s.live && Allowed(s, a) && Effect(s, a).live && id in s.items && id in Effect(s, a).items
    ensures Effect(s, a).items[id].triggered <==> (s.items[id].triggered || Triggers(s, a, id)) && !Spends(s, a, id)
  {
    hide Inv, Effect, Allowed;
    InvSound(s);
    if Cycles(s, a) {
      hide TriggeredBy;
      CycleTriggers(s, a, id);
    } else {
      OtherItems(s, a);
      GivenOut(s, a, id);
      OtherSent(s, a);
      ItemTriggers(s, a, id);
    }
  }

  lemma OtherSent(s: Sub, a: Action)
    requires !Cycles(s, a)
    ensures Effect(s, a).sent == s.sent
  {
    hide Find, RemoveAt, ItemEffect;
    ItemEffectFrame(s, a);
  }

  lemma CycleTriggers(s: Sub, a: Action, id: nat)
    requires Inv(s) && s.live && Allowed(s, a) && Effect(s, a).live && id in s.items && Cycles(s, a)
    ensures AllSized(s.items) && id in Effect(s, a).items
    ensures var s', c := Effect(s, a), Samples(a.c.kept, a.Publish? && s.resend, a.c.current);
            s'.items[id].triggered <==>
              && (s.items[id].triggered || TriggeredBy(s.items, s.items.Keys, id, c))
              && !(|s'.sent| > |s.sent| && s'.items[id].queue == [])
  {
    hide Effect, Inv, Sampled, TriggeredBy, Of, Addressed;
    CycleItems(s, a);
  }

  lemma ItemTriggers(s: Sub, a: Action, id: nat)
    requires AllSized(s.items) && id in s.items && id in ItemEffect(s, a).items && (a.AddItem? ==> a.id != id)
    requires !Cycles(s, a)
    ensures ItemEffect(s, a).items[id].triggered <==> s.items[id].triggered || Triggers(s, a, id)
  {
    hide ItemEffect;
    if a.OnEvent? {
      EventTriggersItem(s, a, id);
    } else {
      ServiceKeepsTrigger(s, a, id);
    }
  }

  lemma EventTriggersItem(s: Sub, a: Action, id: nat)
    requires AllSized(s.items) && id in s.items && a.OnEvent?
    ensures ItemEffect(s, a).items[id].triggered <==> s.items[id].triggered || Triggers(s, a, id)
  {
    hide Accept;
    if a.id in s.items {
      OneItemSet(s.items[a.id], a);
    }
  }

  lemma ServiceKeepsTrigger(s: Sub, a: Action, id: nat)
    requires id in s.items && id in ItemEffect(s, a).items && (a.AddItem? ==> a.id != id) && !a.OnEvent?
    ensures ItemEffect(s, a).items[id].triggered == s.items[id].triggered
  {
    hide SetMode, ModifyItem, ItemSet;
    if (a.SetMonitoringMode? || a.Modifies?) && a.id == id {
      OneItemSet(s.items[id], a);
    }
  }

  /** Sampling an item triggers others exactly when a value is kept, or is sent again. */
  lemma FiresIff(m: Item, id: nat, c: Samples)
    requires 1 <= m.size && |m.queue| <= m.size
    ensures Fires(m, id, c) <==>
              && m.kind == DataChangeKind && m.mode != M.Disabled
              && (c.kept(id) != [] || (c.resend && m.mode == M.Reporting && m.queue == []))
  {
    hide AcceptAll, M.Survivors, M.Enqueue, Overflow, Entries;
    AcceptAllSurvivors(m, id, c.kept(id));
  }

  /**
   * A cycle has something to publish if a reporting item, or one triggered before, has values; and only if some
   * item that reports or is triggered has.
   */
  lemma AvailableWhen(s: Sub, a: Action)
    requires Inv(s) && s.live && Allowed(s, a) && Cycles(s, a)
    ensures a.c.refreshed.Keys == s.items.Keys
    ensures (exists id :: && id in s.items && a.c.refreshed[id].queue != []
                          && (s.items[id].mode == M.Reporting || s.items[id].triggered)) ==> a.c.available
    ensures a.c.available ==>
              exists id :: && id in s.items && a.c.refreshed[id].queue != []
                           && (s.items[id].mode == M.Reporting || a.c.refreshed[id].triggered)
  {
    hide Inv, Effect, Sampled, TriggeredBy, Gathered;
    var c := Samples(a.c.kept, a.Publish? && s.resend, a.c.current);
    InvSound(s);
    forall id | id in s.items
      ensures var r := Sampled(s.items[id], id, c);
              r.mode == s.items[id].mode && (r.queue != [] ==> r.mode != M.Disabled)
    {
      GivenOut(s, a, id);
      SampledMode(s.items[id], id, c);
    }
  }

  lemma SampledMode(m: Item, id: nat, c: Samples)
    requires 1 <= m.size && |m.queue| <= m.size && (m.mode == M.Disabled ==> m.queue == [])
    ensures Sampled(m, id, c).mode == m.mode && (m.mode == M.Disabled ==> Sampled(m, id, c).queue == [])
  {
    hide AcceptAll, M.Enqueue, Overflow;
    SampledSettings(m, id, c);
  }

  /** An item starts empty, untriggered and without links. */
  lemma AddedIs(s: Sub, id: nat, m: Item)
    requires s.live && Allowed(s, AddItem(id, m))
    ensures var items := Effect(s, AddItem(id, m)).items;
            && id in items && items[id] == m && !m.triggered && m.links == {} && m.queue == [] && m.log == []
            && forall k :: k in s.items && k != id ==> k in items && items[k] == s.items[k]
  {
  }

  /** The `i`-th action triggered item `id`, and no message since has emptied its queue. */
  ghost predicate TriggeredSince(s: Sub, acts: seq<Action>, id: nat, i: nat)
  {
    && i < |acts| && Triggers(Run(s, acts[..i]), acts[i], id)
    && forall j :: i <= j < |acts| ==> !Spends(Run(s, acts[..j]), acts[j], id)
  }

  lemma TriggeredSinceNext(s: Sub, acts: seq<Action>, id: nat, i: nat)
    requires acts != []
    ensures var n := |acts| - 1;
            TriggeredSince(s, acts, id, i) <==>
              && !Spends(Run(s, acts[..n]), acts[n], id)
              && ((i == n && Triggers(Run(s, acts[..n]), acts[n], id)) || TriggeredSince(s, acts[..n], id, i))
  {
    hide Run, Triggers, Spends;
    var n := |acts| - 1;
    var front := acts[..n];
    assert forall j :: 0 <= j < n ==> front[..j] == acts[..j] && front[j] == acts[j];
  }

  /** In every run an item is triggered exactly when a linked item accepted something that no message has used up. */
  lemma {:induction false} TriggeredIff(s: Sub, acts: seq<Action>, id: nat)
    requires Inv(s) && s.live && AllowedRun(s, acts) && id in s.items && !s.items[id].triggered
    requires Run(s, acts).live && forall k :: 0 <= k < |acts| ==> acts[k] != DeleteItem(id)
    ensures Inv(Run(s, acts)) && id in Run(s, acts).items
    ensures Run(s, acts).items[id].triggered <==> exists i: nat :: TriggeredSince(s, acts, id, i)
    decreases |acts|
  {
    hide Inv, Effect, Allowed, Triggers, Spends, TriggeredSince, ItemSet;
    if acts != [] {
      var n := |acts| - 1;
      var s1, a := Run(s, acts[..n]), acts[n];
      if !s1.live {
        StaysDead(s1, a);
      }
      TriggeredIff(s, acts[..n], id);
      StepKeeps(s1, a);
      ItemStep(s1, a, id);
      TriggeredStep(s1, a, id);
      forall i: nat
        ensures TriggeredSince(s, acts, id, i) <==>
                  !Spends(s1, a, id) && ((i == n && Triggers(s1, a, id)) || TriggeredSince(s, acts[..n], id, i))
      {
        TriggeredSinceNext(s, acts, id, i);
      }
      assert TriggeredSince(s, acts, id, n) <==>
        !Spends(s1, a, id) && (Triggers(s1, a, id) || TriggeredSince(s, acts[..n], id, n));
      if s1.items[id].triggered && !Spends(s1, a, id) {
        var i: nat :| TriggeredSince(s, acts[..n], id, i);
        assert TriggeredSince(s, acts, id, i);
      }
    } else {
      NotSince(s, id);
    }
  }

  lemma NotSince(s: Sub, id: nat)
    ensures forall i: nat :: !TriggeredSince(s, [], id, i)
  {
  }
}
