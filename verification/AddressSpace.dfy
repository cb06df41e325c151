/**
 * The references between the nodes of the address space: adding nodes adds the inverses of their references to
 * the target nodes, and deleting a node removes them again (opcua/server/namespace_manager.go).
 */
module AddressSpace {

  type NodeId = nat

  const HAS_TYPE_DEFINITION: NodeId := 40
  const HAS_MODELLING_RULE: NodeId := 37

  /** A reference as its source node holds it. */
  datatype Reference = Reference(refType: NodeId, inverse: bool, target: NodeId)

  type Nodes = map<NodeId, seq<Reference>>

  datatype Node = Node(id: NodeId, refs: seq<Reference>)

  /** Type definitions and modelling rules have no inverse references. */
  predicate OneWay(r: Reference)
  {
    r.refType == HAS_TYPE_DEFINITION || r.refType == HAS_MODELLING_RULE
  }

  /** The inverse of a reference that node `id` holds. */
  function Inverse(r: Reference, id: NodeId): (i: Reference)
  {
    Reference(r.refType, !r.inverse, id)
  }

  predicate Answered(nodes: Nodes, id: NodeId, r: Reference)
  {
    OneWay(r) || r.target !in nodes || Inverse(r, id) in nodes[r.target]
  }

  /** References to present nodes come in inverse pairs. */
  ghost predicate Paired(nodes: Nodes)
  {
    forall id, r :: id in nodes && r in nodes[id] ==> Answered(nodes, id, r)
  }

  // ------------------------------------------------------------------ addNodes

  function Inserted(nodes: Nodes, batch: seq<Node>): (r: Nodes)
    decreases |batch|
  {
    if batch == [] then nodes else Inserted(nodes[batch[0].id := batch[0].refs], batch[1..])
  }

  function AnswerOne(nodes: Nodes, id: NodeId, r: Reference): (nodes': Nodes)
  {
    if Answered(nodes, id, r) then nodes else nodes[r.target := nodes[r.target] + [Inverse(r, id)]]
  }

  function AnswerAll(nodes: Nodes, id: NodeId, refs: seq<Reference>): (nodes': Nodes)
    decreases |refs|
  {
    if refs == [] then nodes else AnswerAll(AnswerOne(nodes, id, refs[0]), id, refs[1..])
  }

  /** The references of each node are those it has when its turn comes. */
  function AnswerNodes(nodes: Nodes, batch: seq<Node>): (nodes': Nodes)
    decreases |batch|
  {
    if batch == [] then nodes
    else if batch[0].id !in nodes then AnswerNodes(nodes, batch[1..])
    else AnswerNodes(AnswerAll(nodes, batch[0].id, nodes[batch[0].id]), batch[1..])
  }

  function Added(nodes: Nodes, batch: seq<Node>): (nodes': Nodes)
  {
    AnswerNodes(Inserted(nodes, batch), batch)
  }

  ghost predicate Fresh(nodes: Nodes, batch: seq<Node>)
  {
    && (forall i :: 0 <= i < |batch| ==> batch[i].id !in nodes)
    && (forall i, j :: 0 <= i < j < |batch| ==> batch[i].id != batch[j].id)
  }

  ghost predicate IsOf(batch: seq<Node>, id: NodeId)
  {
    exists i :: 0 <= i < |batch| && batch[i].id == id
  }

  // ------------------------------------------------------------------ what answering keeps

  /** Nodes only gain references at the end, each the inverse of one that `id` holds in `refs`. */
  ghost predicate Grows(nodes: Nodes, nodes': Nodes, id: NodeId, refs: seq<Reference>)
  {
    && nodes'.Keys == nodes.Keys
    && forall t :: t in nodes ==>
         nodes[t] <= nodes'[t] && forall x :: x in nodes'[t][|nodes[t]|..] ==> AddedFor(x, t, id, refs)
  }

  predicate AddedFor(x: Reference, t: NodeId, id: NodeId, refs: seq<Reference>)
  {
    x.target == id && !OneWay(x) && Inverse(x, t) in refs
  }

  lemma {:induction false} AnswerAllGrows(nodes: Nodes, id: NodeId, refs: seq<Reference>, all: seq<Reference>)
    requires forall r :: r in refs ==> r in all
    ensures Grows(nodes, AnswerAll(nodes, id, refs), id, all)
    decreases |refs|
  {
    hide Answered, AddedFor;
    if refs != [] {
      var nodes1 := AnswerOne(nodes, id, refs[0]);
      AnswerOneGrows(nodes, id, refs[0], all);
      AnswerAllGrows(nodes1, id, refs[1..], all);
      GrowsOn(nodes, nodes1, AnswerAll(nodes1, id, refs[1..]), id, all);
    }
  }

  lemma AnswerOneGrows(nodes: Nodes, id: NodeId, r: Reference, all: seq<Reference>)
    requires r in all
    ensures Grows(nodes, AnswerOne(nodes, id, r), id, all)
  {
    if !Answered(nodes, id, r) {
      var t := r.target;
      assert Inverse(Inverse(r, id), t) == r;
      assert (nodes[t] + [Inverse(r, id)])[|nodes[t]|..] == [Inverse(r, id)];
    }
  }

  lemma GrowsOn(a: Nodes, b: Nodes, c: Nodes, id: NodeId, refs: seq<Reference>)
    requires Grows(a, b, id, refs) && Grows(b, c, id, refs)
    ensures Grows(a, c, id, refs)
  {
    hide AddedFor;
    forall t | t in a
      ensures a[t] <= c[t] && forall x :: x in c[t][|a[t]|..] ==> AddedFor(x, t, id, refs)
    {
      assert c[t][|a[t]|..] == b[t][|a[t]|..] + c[t][|b[t]|..];
    }
  }

  lemma StaysAnswered(a: Nodes, b: Nodes, id: NodeId, refs: seq<Reference>, x: NodeId, r: Reference)
    requires Grows(a, b, id, refs) && Answered(a, x, r)
    ensures Answered(b, x, r)
  {
    hide AddedFor;
    if r.target in a {
      assert a[r.target] <= b[r.target];
    }
  }

  lemma {:induction false} AnswerAllAnswers(nodes: Nodes, id: NodeId, refs: seq<Reference>, r: Reference)
    requires r in refs
    ensures Answered(AnswerAll(nodes, id, refs), id, r)
    decreases |refs|
  {
    var nodes1 := AnswerOne(nodes, id, refs[0]);
    if r == refs[0] {
      assert Answered(nodes1, id, r);
      AnswerAllGrows(nodes1, id, refs[1..], refs[1..]);
      StaysAnswered(nodes1, AnswerAll(nodes1, id, refs[1..]), id, refs[1..], id, r);
    } else {
      AnswerAllAnswers(nodes1, id, refs[1..], r);
    }
  }

  // ------------------------------------------------------------------ pairing after addNodes

  /** The references that need not be answered yet: those `todo` brings along, and old ones to the new nodes. */
  ghost predicate Excused(before: Nodes, batch: seq<Node>, todo: seq<Node>, id: NodeId, r: Reference)
  {
    IsOf(todo, id) || (id in before && r in before[id] && IsOf(batch, r.target))
  }

  ghost predicate Pending(before: Nodes, batch: seq<Node>, todo: seq<Node>, nodes: Nodes)
  {
    forall id, r :: id in nodes && r in nodes[id] ==> Answered(nodes, id, r) || Excused(before, batch, todo, id, r)
  }

  /** One turn: the references of the first node of `todo` are answered, and the new ones are answered by them. */
  lemma TurnKeeps(before: Nodes, batch: seq<Node>, todo: seq<Node>, nodes: Nodes)
    requires todo != [] && todo[0].id in nodes && Pending(before, batch, todo, nodes)
    ensures Pending(before, batch, todo[1..], AnswerAll(nodes, todo[0].id, nodes[todo[0].id]))
  {
    hide Answered, Grows, AnswerAll, Excused;
    var n := todo[0].id;
    var refs := nodes[n];
    var nodes' := AnswerAll(nodes, n, refs);
    AnswerAllGrows(nodes, n, refs, refs);
    forall id, r | id in nodes' && r in nodes'[id]
      ensures Answered(nodes', id, r) || Excused(before, batch, todo[1..], id, r)
    {
      GrownReference(nodes, nodes', n, refs, id, r);
      if r in nodes[id] {
        if id == n {
          AnswerAllAnswers(nodes, n, refs, r);
        } else if Answered(nodes, id, r) {
          StaysAnswered(nodes, nodes', n, refs, id, r);
        } else {
          ExcusedLater(before, batch, todo, id, r);
        }
      }
    }
  }

  lemma ExcusedLater(before: Nodes, batch: seq<Node>, todo: seq<Node>, id: NodeId, r: Reference)
    requires todo != [] && Excused(before, batch, todo, id, r) && id != todo[0].id
    ensures Excused(before, batch, todo[1..], id, r)
  {
    if IsOf(todo, id) {
      var i :| 0 <= i < |todo| && todo[i].id == id;
      assert todo[1..][i - 1].id == id;
    }
  }

  /** A reference was there before, or it is answered by the one it was added for. */
  lemma GrownReference(nodes: Nodes, nodes': Nodes, n: NodeId, refs: seq<Reference>, id: NodeId, r: Reference)
    requires Grows(nodes, nodes', n, refs) && n in nodes && refs == nodes[n] && id in nodes' && r in nodes'[id]
    ensures id in nodes && (r in nodes[id] || Answered(nodes', id, r))
  {
    if r !in nodes[id] {
      assert nodes'[id] == nodes[id] + nodes'[id][|nodes[id]|..];
      assert AddedFor(r, id, n, refs);
      assert nodes[n] <= nodes'[n];
    }
  }

  lemma {:induction false} TurnsKeep(before: Nodes, batch: seq<Node>, todo: seq<Node>, nodes: Nodes)
    requires Pending(before, batch, todo, nodes) && forall i :: 0 <= i < |todo| ==> todo[i].id in nodes
    ensures Pending(before, batch, [], AnswerNodes(nodes, todo))
    decreases |todo|
  {
    hide Pending, AnswerAll, Grows;
    if todo != [] {
      var n := todo[0].id;
      TurnKeeps(before, batch, todo, nodes);
      AnswerAllGrows(nodes, n, nodes[n], nodes[n]);
      GrowsKeys(nodes, AnswerAll(nodes, n, nodes[n]), n, nodes[n]);
      TurnsKeep(before, batch, todo[1..], AnswerAll(nodes, n, nodes[n]));
    }
  }

  lemma GrowsKeys(a: Nodes, b: Nodes, id: NodeId, refs: seq<Reference>)
    requires Grows(a, b, id, refs)
    ensures b.Keys == a.Keys
  {
  }

  lemma {:induction false} InsertedIs(nodes: Nodes, batch: seq<Node>)
    requires forall i, j :: 0 <= i < j < |batch| ==> batch[i].id != batch[j].id
    ensures var r := Inserted(nodes, batch);
            && (forall id :: id in r <==> id in nodes || IsOf(batch, id))
            && (forall i :: 0 <= i < |batch| ==> batch[i].id in r && r[batch[i].id] == batch[i].refs)
            && (forall id :: id in nodes && !IsOf(batch, id) ==> r[id] == nodes[id])
    decreases |batch|
  {
    if batch != [] {
      var nodes1, rest := nodes[batch[0].id := batch[0].refs], batch[1..];
      InsertedIs(nodes1, rest);
      var r := Inserted(nodes1, rest);
      assert !IsOf(rest, batch[0].id);
      forall id
        ensures IsOf(batch, id) <==> id == batch[0].id || IsOf(rest, id)
      {
        IsOfStep(batch, id);
      }
      forall i | 0 <= i < |batch|
        ensures batch[i].id in r && r[batch[i].id] == batch[i].refs
      {
        if i > 0 {
          assert rest[i - 1] == batch[i];
        }
      }
    }
  }

  lemma IsOfStep(batch: seq<Node>, id: NodeId)
    requires batch != []
    ensures IsOf(batch, id) <==> id == batch[0].id || IsOf(batch[1..], id)
  {
    if IsOf(batch, id) && id != batch[0].id {
      var i :| 0 <= i < |batch| && batch[i].id == id;
      assert batch[1..][i - 1].id == id;
    }
  }

  /** What is appended to any node by all the turns refers to the new nodes. */
  lemma {:induction false} AnswerNodesGrows(nodes: Nodes, todo: seq<Node>, t: NodeId)
    requires t in nodes
    ensures var nodes' := AnswerNodes(nodes, todo);
            && nodes'.Keys == nodes.Keys && nodes[t] <= nodes'[t]
            && forall x :: x in nodes'[t][|nodes[t]|..] ==> IsOf(todo, x.target)
    decreases |todo|
  {
    if todo != [] {
      forall id
        ensures IsOf(todo, id) <==> id == todo[0].id || IsOf(todo[1..], id)
      {
        IsOfStep(todo, id);
      }
      hide IsOf, AnswerAll;
      var n := todo[0].id;
      if n in nodes {
        var nodes1 := AnswerAll(nodes, n, nodes[n]);
        AnswerAllGrows(nodes, n, nodes[n], nodes[n]);
        AnswerNodesGrows(nodes1, todo[1..], t);
        var nodes' := AnswerNodes(nodes, todo);
        assert nodes'[t][|nodes[t]|..] == nodes1[t][|nodes[t]|..] + nodes'[t][|nodes1[t]|..];
      } else {
        AnswerNodesGrows(nodes, todo[1..], t);
      }
    }
  }

  /** Whenever an old node refers to a new one, the new node brings the inverse along. */
  ghost predicate NoneDangling(nodes: Nodes, batch: seq<Node>)
  {
    forall id, r, i :: id in nodes && r in nodes[id] && !OneWay(r) && 0 <= i < |batch| && batch[i].id == r.target ==>
      Inverse(r, id) in batch[i].refs
  }

  lemma InsertedPending(nodes: Nodes, batch: seq<Node>)
    requires Paired(nodes) && Fresh(nodes, batch)
    ensures Pending(nodes, batch, batch, Inserted(nodes, batch))
  {
    hide IsOf, Inserted;
    InsertedIs(nodes, batch);
    var nodes1 := Inserted(nodes, batch);
    forall id | id in nodes
      ensures !IsOf(batch, id)
    {
      NotFresh(nodes, batch, id);
    }
    forall id, r | id in nodes1 && r in nodes1[id]
      ensures Answered(nodes1, id, r) || Excused(nodes, batch, batch, id, r)
    {
      if !IsOf(batch, id) {
        assert Answered(nodes, id, r);
      }
    }
  }

  lemma NotFresh(nodes: Nodes, batch: seq<Node>, id: NodeId)
    requires Fresh(nodes, batch) && id in nodes
    ensures !IsOf(batch, id)
  {
  }

  /**
   * After `addNodes` references still come in pairs exactly when no old reference to a new node was left
   * without its inverse; so in particular when no node referred to the new ids.
   */
  lemma AddedPairedIff(nodes: Nodes, batch: seq<Node>)
    requires Paired(nodes) && Fresh(nodes, batch)
    ensures Paired(Added(nodes, batch)) <==> NoneDangling(nodes, batch)
  {
    hide Inserted, AnswerNodes, IsOf, Answered, Excused;
    var nodes1, nodes2 := Inserted(nodes, batch), Added(nodes, batch);
    InsertedIs(nodes, batch);
    InsertedPending(nodes, batch);
    TurnsKeep(nodes, batch, batch, nodes1);
    forall id, r, i | id in nodes && r in nodes[id] && 0 <= i < |batch| && batch[i].id == r.target
      ensures id in nodes2 && r in nodes2[id]
      ensures (Answered(nodes2, id, r) <==> OneWay(r) || Inverse(r, id) in batch[i].refs)
    {
      OldToNew(nodes, batch, id, r, i);
    }
    forall id, r | id in nodes2 && r in nodes2[id] && !Answered(nodes2, id, r)
      ensures id in nodes && r in nodes[id] && IsOf(batch, r.target)
    {
      OnlyDangling(nodes, batch, nodes2, id, r);
    }
    if NoneDangling(nodes, batch) {
      forall id, r | id in nodes2 && r in nodes2[id]
        ensures Answered(nodes2, id, r)
      {
        if !Answered(nodes2, id, r) {
          var i := IndexOf(batch, r.target);
        }
      }
    }
  }

  lemma IndexOf(batch: seq<Node>, id: NodeId) returns (i: nat)
    requires IsOf(batch, id)
    ensures i < |batch| && batch[i].id == id
  {
    i :| 0 <= i < |batch| && batch[i].id == id;
  }

  lemma OnlyDangling(nodes: Nodes, batch: seq<Node>, nodes2: Nodes, id: NodeId, r: Reference)
    requires Pending(nodes, batch, [], nodes2) && id in nodes2 && r in nodes2[id] && !Answered(nodes2, id, r)
    ensures id in nodes && r in nodes[id] && IsOf(batch, r.target)
  {
  }

  /** An old reference to a new node is answered by what the new node brought along, or not at all. */
  lemma OldToNew(nodes: Nodes, batch: seq<Node>, id: NodeId, r: Reference, i: nat)
    requires Fresh(nodes, batch) && id in nodes && r in nodes[id] && i < |batch| && batch[i].id == r.target
    ensures var nodes2 := Added(nodes, batch);
            && id in nodes2 && r in nodes2[id]
            && (Answered(nodes2, id, r) <==> OneWay(r) || Inverse(r, id) in batch[i].refs)
  {
    hide Inserted, AnswerNodes, IsOf;
    var nodes1, nodes2, f := Inserted(nodes, batch), Added(nodes, batch), batch[i].id;
    InsertedIs(nodes, batch);
    NotFresh(nodes, batch, id);
    assert f in nodes1 && id in nodes1;
    AnswerNodesGrows(nodes1, batch, id);
    AnswerNodesGrows(nodes1, batch, f);
    assert nodes2[f] == nodes1[f] + nodes2[f][|nodes1[f]|..];
    assert nodes2[id] == nodes1[id] + nodes2[id][|nodes1[id]|..];
  }

  /** Pairing can be lost: an old node may refer to the id of a node that is added later. */
  lemma DanglingExample()
    ensures var nodes := map[1 := [Reference(35, false, 2)]];
            Paired(nodes) && Fresh(nodes, [Node(2, [])]) && !Paired(Added(nodes, [Node(2, [])]))
  {
    var r := Reference(35, false, 2);
    var nodes := map[1 := [r]];
    var batch := [Node(2, [])];
    assert Paired(nodes);
    assert r in nodes[1] && !OneWay(r) && batch[0].id == r.target && Inverse(r, 1) !in batch[0].refs;
    assert !NoneDangling(nodes, batch);
    AddedPairedIff(nodes, batch);
  }

  // ------------------------------------------------------------------ deleteNodeandInverseReferences

  function Except(refs: seq<Reference>, gone: Reference): (r: seq<Reference>)
  {
    if refs == [] then []
    else if refs[|refs| - 1] == gone then Except(refs[..|refs| - 1], gone)
    else Except(refs[..|refs| - 1], gone) + [refs[|refs| - 1]]
  }

  function Unanswered(nodes: Nodes, id: NodeId, refs: seq<Reference>): (nodes': Nodes)
    decreases |refs|
  {
    if refs == [] then nodes else Unanswered(UnanswerOne(nodes, id, refs[0]), id, refs[1..])
  }

  function UnanswerOne(nodes: Nodes, id: NodeId, r: Reference): (nodes': Nodes)
  {
    if OneWay(r) || r.target !in nodes then nodes
    else nodes[r.target := Except(nodes[r.target], Inverse(r, id))]
  }

  function Deleted(nodes: Nodes, node: Node): (nodes': Nodes)
  {
    Unanswered(nodes, node.id, node.refs) - {node.id}
  }

  /** What node `t` is left with, in closed form: all but the inverses of the references of the deleted node. */
  function Rest(held: seq<Reference>, t: NodeId, id: NodeId, refs: seq<Reference>): (r: seq<Reference>)
  {
    if held == [] then []
    else
      var front, last := Rest(held[..|held| - 1], t, id, refs), held[|held| - 1];
      if AddedFor(last, t, id, refs) then front else front + [last]
  }

  lemma {:induction false} UnansweredIs(nodes: Nodes, id: NodeId, refs: seq<Reference>, t: NodeId)
    requires t in nodes
    ensures var nodes' := Unanswered(nodes, id, refs);
            nodes'.Keys == nodes.Keys && nodes'[t] == Rest(nodes[t], t, id, refs)
    decreases |refs|
  {
    if refs == [] {
      RestOfNone(nodes[t], t, id);
    } else {
      var r := refs[0];
      UnansweredIs(UnanswerOne(nodes, id, r), id, refs[1..], t);
      RestStep(nodes[t], t, id, refs);
    }
  }

  lemma {:induction false} RestOfNone(held: seq<Reference>, t: NodeId, id: NodeId)
    ensures Rest(held, t, id, []) == held
  {
    if held != [] {
      RestOfNone(held[..|held| - 1], t, id);
    }
  }

  lemma {:induction false} RestStep(held: seq<Reference>, t: NodeId, id: NodeId, refs: seq<Reference>)
    requires refs != []
    ensures var r := refs[0];
            Rest(held, t, id, refs)
            == Rest(if OneWay(r) || r.target != t then held else Except(held, Inverse(r, id)), t, id, refs[1..])
  {
    if held != [] {
      var r, front, last := refs[0], held[..|held| - 1], held[|held| - 1];
      RestStep(front, t, id, refs);
      assert refs == [r] + refs[1..];
      assert AddedFor(last, t, id, refs) <==>
        AddedFor(last, t, id, refs[1..]) || (!OneWay(r) && r.target == t && last == Inverse(r, id));
      var kept := Except(front, Inverse(r, id));
      assert (kept + [last])[..|kept|] == kept;
    }
  }

  lemma {:induction false} RestHas(held: seq<Reference>, t: NodeId, id: NodeId, refs: seq<Reference>, x: Reference)
    ensures x in Rest(held, t, id, refs) <==> x in held && !AddedFor(x, t, id, refs)
  {
    if held != [] {
      RestHas(held[..|held| - 1], t, id, refs, x);
      assert held == held[..|held| - 1] + [held[|held| - 1]];
    }
  }

  /** For any graph, paired or not: which references the other nodes keep. */
  lemma DeletedReference(nodes: Nodes, node: Node, t: NodeId, x: Reference)
    requires t in nodes && t != node.id
    ensures var nodes' := Deleted(nodes, node);
            && nodes'.Keys == nodes.Keys - {node.id}
            && (x in nodes'[t] <==> x in nodes[t] && !AddedFor(x, t, node.id, node.refs))
  {
    hide Rest, Unanswered;
    UnansweredIs(nodes, node.id, node.refs, t);
    RestHas(nodes[t], t, node.id, node.refs, x);
  }

  /** Deleting a node leaves no reference to it but one-way ones, and the others still come in pairs. */
  lemma DeletedPaired(nodes: Nodes, node: Node)
    requires Paired(nodes) && node.id in nodes && node.refs == nodes[node.id]
    ensures var nodes' := Deleted(nodes, node);
            && Paired(nodes')
            && forall t, x :: t in nodes' && x in nodes'[t] ==> x.target != node.id || OneWay(x)
  {
    hide Deleted;
    var nodes' := Deleted(nodes, node);
    if t :| t in nodes && t != node.id {
      DeletedReference(nodes, node, t, Reference(0, false, 0));
    } else {
      OnlyOne(nodes, node);
    }
    forall t, x | t in nodes' && x in nodes'[t]
      ensures x in nodes[t] && (x.target == node.id ==> OneWay(x)) && Answered(nodes', t, x)
    {
      DeletedReference(nodes, node, t, x);
      assert Answered(nodes, t, x);
      if x.target in nodes' {
        DeletedReference(nodes, node, x.target, Inverse(x, t));
      }
    }
  }

  lemma OnlyOne(nodes: Nodes, node: Node)
    requires forall t :: t in nodes ==> t == node.id
    ensures Deleted(nodes, node).Keys <= nodes.Keys - {node.id}
  {
    if node.id in nodes {
      UnansweredIs(nodes, node.id, node.refs, node.id);
    } else {
      UnansweredNothing(nodes, node.id, node.refs);
    }
  }

  lemma {:induction false} UnansweredNothing(nodes: Nodes, id: NodeId, refs: seq<Reference>)
    requires nodes == map[]
    ensures Unanswered(nodes, id, refs) == map[]
    decreases |refs|
  {
    if refs != [] {
      UnansweredNothing(nodes, id, refs[1..]);
    }
  }

  /**
   * Which references a node holds after another was added: its old ones, and the inverses of the new node's
   * references to it, type definitions and modelling rules apart.
   */
  lemma AddedReference(nodes: Nodes, node: Node, t: NodeId, x: Reference)
    requires node.id !in nodes && t in nodes
    ensures t in Added(nodes, [node])
    ensures x in Added(nodes, [node])[t] <==>
              || x in nodes[t]
              || (x.target == node.id && x.refType !in {37, 40} && Reference(x.refType, !x.inverse, t) in node.refs)
  {
    hide AnswerAll;
    var id, nodes0 := node.id, nodes[node.id := node.refs];
    assert [node][1..] == [];
    assert Inserted(nodes, [node]) == Inserted(nodes0, []) == nodes0;
    var nodes1 := AnswerAll(nodes0, id, node.refs);
    assert Added(nodes, [node]) == AnswerNodes(nodes1, []) == nodes1;
    AnswerAllGrows(nodes0, id, node.refs, node.refs);
    GrowsKeys(nodes0, nodes1, id, node.refs);
    assert nodes1[t] == nodes[t] + nodes1[t][|nodes[t]|..];
    if Reference(x.refType, !x.inverse, t) in node.refs {
      AnswerAllAnswers(nodes0, id, node.refs, Reference(x.refType, !x.inverse, t));
    }
  }

  /** Adding a node and deleting it again restores the address space, to the order of the references. */
  lemma AddThenDelete(nodes: Nodes, node: Node)
    requires node.id !in nodes
    requires forall t, x :: t in nodes && x in nodes[t] ==> x.target != node.id || OneWay(x)
    ensures var nodes1 := Added(nodes, [node]);
            node.id in nodes1 && Deleted(nodes1, Node(node.id, nodes1[node.id])) == nodes
  {
    hide AnswerAll, Unanswered;
    var id, nodes0 := node.id, nodes[node.id := node.refs];
    assert [node][1..] == [];
    assert Inserted(nodes, [node]) == Inserted(nodes0, []) == nodes0;
    var nodes1 := AnswerAll(nodes0, id, node.refs);
    assert Added(nodes, [node]) == AnswerNodes(nodes1, []) == nodes1;
    AnswerAllGrows(nodes0, id, node.refs, node.refs);
    GrowsKeys(nodes0, nodes1, id, node.refs);
    var nodes2 := Deleted(nodes1, Node(id, nodes1[id]));
    UnansweredIs(nodes1, id, nodes1[id], id);
    forall t | t in nodes
      ensures nodes2[t] == nodes[t]
    {
      UnansweredIs(nodes1, id, nodes1[id], t);
      RestIsOld(nodes0, nodes1, id, t);
    }
  }

  /** What was added for the references of `id` is exactly what their deletion removes. */
  lemma RestIsOld(nodes: Nodes, nodes1: Nodes, id: NodeId, t: NodeId)
    requires id in nodes && t in nodes && Grows(nodes, nodes1, id, nodes[id])
    requires forall x :: x in nodes[t] ==> x.target != id || OneWay(x)
    ensures Rest(nodes1[t], t, id, nodes1[id]) == nodes[t]
  {
    hide Rest;
    var refs, tail := nodes1[id], nodes1[t][|nodes[t]|..];
    assert nodes[id] <= refs;
    assert nodes1[t] == nodes[t] + tail;
    assert forall x :: x in tail ==> AddedFor(x, t, id, nodes[id]);
    RestOfBoth(nodes[t], tail, t, id, refs);
  }

  lemma {:induction false} RestOfBoth(kept: seq<Reference>, gone: seq<Reference>, t: NodeId, id: NodeId,
                                      refs: seq<Reference>)
    requires forall x :: x in kept ==> !AddedFor(x, t, id, refs)
    requires forall x :: x in gone ==> AddedFor(x, t, id, refs)
    ensures Rest(kept + gone, t, id, refs) == kept
    decreases |kept| + |gone|
  {
    hide AddedFor;
    var all := kept + gone;
    if gone != [] {
      assert all[..|all| - 1] == kept + gone[..|gone| - 1];
      assert all[|all| - 1] == gone[|gone| - 1] && gone[|gone| - 1] in gone;
      RestOfBoth(kept, gone[..|gone| - 1], t, id, refs);
    } else if kept != [] {
      assert all == kept && kept[|kept| - 1] in kept;
      assert kept[..|kept| - 1] + [] == kept[..|kept| - 1];
      RestOfBoth(kept[..|kept| - 1], [], t, id, refs);
    }
  }

  // ------------------------------------------------------------------ the program

  /** `NamespaceManager`; the nodes are held with their references. */
  class NamespaceManager {
    var nodes: Nodes

    method HasReference(refs: seq<Reference>, r: Reference) returns (found: bool)
      ensures found <==> r in refs
    {
      found := false;
      for i := 0 to |refs|
        invariant r !in refs[..i]
      {
        if refs[i].refType == r.refType && refs[i].inverse == r.inverse && refs[i].target == r.target {
          return true;
        }
      }
    }

    method AnswerReferences(id: NodeId, refs: seq<Reference>)
      modifies this
      ensures nodes == AnswerAll(old(nodes), id, refs)
    {
      for i := 0 to |refs|
        invariant AnswerAll(nodes, id, refs[i..]) == AnswerAll(old(nodes), id, refs)
      {
        var r := refs[i];
        assert refs[i..][1..] == refs[i + 1..];
        if r.refType == HAS_TYPE_DEFINITION || r.refType == HAS_MODELLING_RULE {
          continue;
        }
        if r.target in nodes {
          var found := HasReference(nodes[r.target], Inverse(r, id));
          if !found {
            nodes := nodes[r.target := nodes[r.target] + [Inverse(r, id)]];
          }
        }
      }
    }

    method AddNodes(batch: seq<Node>)
      modifies this
      ensures nodes == Added(old(nodes), batch)
    {
      for i := 0 to |batch|
        invariant Inserted(nodes, batch[i..]) == Inserted(old(nodes), batch)
      {
        nodes := nodes[batch[i].id := batch[i].refs];
        assert batch[i..][1..] == batch[i + 1..];
      }
      ghost var nodes1 := nodes;
      for i := 0 to |batch|
        invariant AnswerNodes(nodes, batch[i..]) == AnswerNodes(nodes1, batch)
      {
        assert batch[i..][1..] == batch[i + 1..];
        if batch[i].id in nodes {
          AnswerReferences(batch[i].id, nodes[batch[i].id]);
        }
      }
    }

    method DropReference(refs: seq<Reference>, gone: Reference) returns (rest: seq<Reference>)
      ensures rest == Except(refs, gone)
    {
      rest := [];
      for i := 0 to |refs|
        invariant rest == Except(refs[..i], gone)
      {
        assert refs[..i + 1][..i] == refs[..i];
        if refs[i].refType == gone.refType && refs[i].inverse == gone.inverse && refs[i].target == gone.target {
          continue;
        }
        rest := rest + [refs[i]];
      }
      assert refs[..|refs|] == refs;
    }

    method DeleteNode(node: Node)
      modifies this
      ensures nodes == Deleted(old(nodes), node)
    {
      for i := 0 to |node.refs|
        invariant Unanswered(nodes, node.id, node.refs[i..]) == Unanswered(old(nodes), node.id, node.refs)
      {
        var r := node.refs[i];
        assert node.refs[i..][1..] == node.refs[i + 1..];
        if r.refType == HAS_TYPE_DEFINITION || r.refType == HAS_MODELLING_RULE {
          continue;
        }
        if r.target in nodes {
          var rest := DropReference(nodes[r.target], Inverse(r, node.id));
          nodes := nodes[r.target := rest];
        }
      }
      nodes := nodes - {node.id};
    }
  }
}
