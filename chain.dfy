/**
 * The rule-chain data model and the node table the executor builds from it.
 *
 * A chain is a list of typed nodes. The executor indexes it by node id in a
 * dictionary: iteration follows the order in which each id first appears,
 * and when two nodes share an id the later one replaces the earlier one.
 * The traversal starts at the first id in that order whose node is a SOURCE.
 */
module Chains {
  import opened Wrappers
  import opened Values

  /** Node ids as the executor uses them: the string form of the stored id. */
  type NodeId = string
  type DeviceId = string
  type ParameterId = string

  /** One SWITCH condition: an operator (only "==" ever matches) and a value. */
  datatype Condition = Condition(operator: string, value: Value)

  /** One ACTION write: set `parameterId` of `deviceId` to `value`. */
  datatype ActionTriple = ActionTriple(deviceId: DeviceId, parameterId: ParameterId, value: Value)

  /**
   * A node's type tag with its configuration and outgoing edge(s). A SWITCH
   * carries its targets positionally aligned with its conditions; an ACTION
   * has no target. `Unknown` stands for a stored type tag outside the four.
   */
  datatype NodeBody =
    | Source(deviceId: DeviceId, parameterId: ParameterId, target: NodeId)
    | Script(script: string, target: NodeId)
    | Switch(conditions: seq<Condition>, targets: seq<NodeId>)
    | Action(actions: seq<ActionTriple>)
    | Unknown(tag: string)

  datatype Node = Node(id: NodeId, body: NodeBody)

  datatype Chain = Chain(id: int, integrationId: int, nodes: seq<Node>)

  /** The id-to-node dictionary: built left to right, so the last node with an id wins. */
  function Index(nodes: seq<Node>): (m: map<NodeId, Node>)
    ensures forall k :: k in m ==> m[k].id == k
    ensures forall i :: 0 <= i < |nodes| ==> nodes[i].id in m
  {
    if nodes == [] then map[]
    else Index(nodes[..|nodes| - 1])[nodes[|nodes| - 1].id := nodes[|nodes| - 1]]
  }

  /** Every entry of the dictionary is one of the listed nodes. */
  lemma {:induction false} IndexHoldsListedNodes(nodes: seq<Node>, k: NodeId)
    requires k in Index(nodes)
    ensures Index(nodes)[k] in nodes
  {
    if nodes != [] {
      var init, last := nodes[..|nodes| - 1], nodes[|nodes| - 1];
      if k != last.id {
        IndexHoldsListedNodes(init, k);
        assert Index(init)[k] in nodes by {
          var i :| 0 <= i < |init| && init[i] == Index(init)[k];
          assert nodes[i] == init[i];
        }
      }
    }
  }

  /** The dictionary's iteration order: each id once, where it first appears. */
  function Keys(nodes: seq<Node>): (ks: seq<NodeId>)
    ensures forall k :: k in ks <==> k in Index(nodes)
    ensures forall i, j :: 0 <= i < j < |ks| ==> ks[i] != ks[j]
  {
    if nodes == [] then []
    else
      var ks := Keys(nodes[..|nodes| - 1]);
      var id := nodes[|nodes| - 1].id;
      if id in ks then ks else ks + [id]
  }

  predicate IsSourceKey(index: map<NodeId, Node>, k: NodeId)
  {
    k in index && index[k].body.Source?
  }

  /**
   * The position in `order` of the first id whose node is a SOURCE; None when
   * there is no such id.
   */
  function FirstSource(order: seq<NodeId>, index: map<NodeId, Node>): (r: Option<nat>)
    ensures r.Some? ==> r.value < |order| && IsSourceKey(index, order[r.value])
    ensures r.Some? ==> forall j :: 0 <= j < r.value ==> !IsSourceKey(index, order[j])
    ensures r.None? ==> forall j :: 0 <= j < |order| ==> !IsSourceKey(index, order[j])
  {
    if order == [] then None
    else if IsSourceKey(index, order[0]) then Some(0)
    else
      match FirstSource(order[1..], index)
      case None => None
      case Some(i) => Some(i + 1)
  }

  ghost predicate UniqueIds(nodes: seq<Node>)
  {
    forall i, j :: 0 <= i < j < |nodes| ==> nodes[i].id != nodes[j].id
  }

  /** One step of the iteration order: the last node's id is added unless already present. */
  lemma KeysStep(nodes: seq<Node>)
    requires nodes != []
    ensures var ks := Keys(nodes[..|nodes| - 1]);
      Keys(nodes) == if nodes[|nodes| - 1].id in ks then ks else ks + [nodes[|nodes| - 1].id]
  {
  }

  /** Dropping the last node keeps ids unique, and the last id is new. */
  lemma UniqueInit(nodes: seq<Node>)
    requires UniqueIds(nodes) && nodes != []
    ensures UniqueIds(nodes[..|nodes| - 1])
    ensures forall i :: 0 <= i < |nodes| - 1 ==> nodes[i].id != nodes[|nodes| - 1].id
  {
  }

  /**
   * The dictionary keeps, under each id, the last node listed with that id:
   * whatever ids repeat.
   */
  lemma {:induction false} IndexLastWins(nodes: seq<Node>, k: NodeId)
    requires k in Index(nodes)
    ensures exists i :: 0 <= i < |nodes| && nodes[i] == Index(nodes)[k]
                        && forall j :: i < j < |nodes| ==> nodes[j].id != k
  {
    var n := |nodes| - 1;
    var init, last := nodes[..n], nodes[n];
    if last.id != k {
      IndexLastWins(init, k);
      var i :| 0 <= i < |init| && init[i] == Index(init)[k] && forall j :: i < j < |init| ==> init[j].id != k;
      assert nodes[i] == init[i];
      forall j | i < j < |nodes|
        ensures nodes[j].id != k
      {
        if j < n {
          assert nodes[j] == init[j];
        }
      }
    } else {
      assert nodes[n] == Index(nodes)[k];
    }
  }

  /** An id that no listed node has is not a key. */
  lemma UnlistedIdNotKey(nodes: seq<Node>, k: NodeId)
    requires forall m :: 0 <= m < |nodes| ==> nodes[m].id != k
    ensures k !in Keys(nodes)
  {
    if k in Index(nodes) {
      IndexHoldsListedNodes(nodes, k);
    }
  }

  /** Listing more nodes only appends to the iteration order. */
  lemma KeysPrefix(nodes: seq<Node>)
    requires nodes != []
    ensures Keys(nodes[..|nodes| - 1]) <= Keys(nodes)
  {
    KeysStep(nodes);
  }

  /** `x` occurs in `ks` at an earlier position than `y`. */
  ghost predicate Before(ks: seq<NodeId>, x: NodeId, y: NodeId)
  {
    exists p, q :: 0 <= p < q < |ks| && ks[p] == x && ks[q] == y
  }

  lemma BeforeInExtension(ks: seq<NodeId>, longer: seq<NodeId>, x: NodeId, y: NodeId)
    requires ks <= longer && Before(ks, x, y)
    ensures Before(longer, x, y)
  {
    var p, q :| 0 <= p < q < |ks| && ks[p] == x && ks[q] == y;
    assert longer[p] == x && longer[q] == y;
  }

  /**
   * The iteration order follows first occurrences: when node `j` is the first
   * with its id and an earlier node `i` has another id, `i`'s id comes first.
   * With the keys being exactly the ids and each once, this fixes the order,
   * whatever ids repeat.
   */
  lemma {:induction false} KeysFirstOccurrence(nodes: seq<Node>, i: nat, j: nat)
    requires i < j < |nodes|
    requires forall m :: 0 <= m < j ==> nodes[m].id != nodes[j].id
    ensures Before(Keys(nodes), nodes[i].id, nodes[j].id)
  {
    var n := |nodes| - 1;
    if j < n {
      InitKeepsFirstOccurrence(nodes, nodes[..n], i, j);
      KeysFirstOccurrence(nodes[..n], i, j);
      BeforeKeptByLastNode(nodes, nodes[i].id, nodes[j].id);
    } else {
      FirstOccurrenceAtEnd(nodes, i);
    }
  }

  /** Dropping the last node keeps two earlier nodes and the first-occurrence condition. */
  lemma InitKeepsFirstOccurrence(nodes: seq<Node>, init: seq<Node>, i: nat, j: nat)
    requires i < j < |nodes| - 1 && init == nodes[..|nodes| - 1]
    requires forall m :: 0 <= m < j ==> nodes[m].id != nodes[j].id
    ensures init[i] == nodes[i] && init[j] == nodes[j]
    ensures forall m :: 0 <= m < j ==> init[m].id != init[j].id
  {
  }

  /** An order established without the last node survives its addition. */
  lemma BeforeKeptByLastNode(nodes: seq<Node>, x: NodeId, y: NodeId)
    requires nodes != []
    requires Before(Keys(nodes[..|nodes| - 1]), x, y)
    ensures Before(Keys(nodes), x, y)
  {
    KeysPrefix(nodes);
    BeforeInExtension(Keys(nodes[..|nodes| - 1]), Keys(nodes), x, y);
  }

  /** The case of KeysFirstOccurrence where the later node is the last one listed. */
  lemma FirstOccurrenceAtEnd(nodes: seq<Node>, i: nat)
    requires i < |nodes| - 1
    requires forall m :: 0 <= m < |nodes| - 1 ==> nodes[m].id != nodes[|nodes| - 1].id
    ensures Before(Keys(nodes), nodes[i].id, nodes[|nodes| - 1].id)
  {
    var n := |nodes| - 1;
    var init := nodes[..n];
    var ks := Keys(init);
    NewIdAppended(nodes);
    assert init[i] == nodes[i];
    assert init[i].id in Index(init);
    assert nodes[i].id in ks;
    var p :| 0 <= p < |ks| && ks[p] == nodes[i].id;
    IndexedBefore(ks, nodes[n].id, p);
  }

  /** An element of `ks` comes before anything appended to it. */
  lemma IndexedBefore(ks: seq<NodeId>, y: NodeId, p: nat)
    requires p < |ks|
    ensures Before(ks + [y], ks[p], y)
  {
    assert (ks + [y])[p] == ks[p] && (ks + [y])[|ks|] == y;
  }

  /** A last node whose id no earlier node has puts its id at the end of the iteration order. */
  lemma NewIdAppended(nodes: seq<Node>)
    requires nodes != []
    requires forall m :: 0 <= m < |nodes| - 1 ==> nodes[m].id != nodes[|nodes| - 1].id
    ensures Keys(nodes) == Keys(nodes[..|nodes| - 1]) + [nodes[|nodes| - 1].id]
  {
    var n := |nodes| - 1;
    var init, last := nodes[..n], nodes[n];
    forall m | 0 <= m < |init|
      ensures init[m].id != last.id
    {
      assert init[m] == nodes[m];
    }
    UnlistedIdNotKey(init, last.id);
    KeysStep(nodes);
  }

  /** With unique ids the iteration order is the listing order. */
  lemma {:induction false} UniqueIdsKeys(nodes: seq<Node>)
    requires UniqueIds(nodes)
    ensures |Keys(nodes)| == |nodes|
    ensures forall i :: 0 <= i < |nodes| ==> Keys(nodes)[i] == nodes[i].id
  {
    if nodes != [] {
      var n := |nodes| - 1;
      var init, last := nodes[..n], nodes[n];
      UniqueInit(nodes);
      UniqueIdsKeys(init);
      var ks := Keys(init);
      assert last.id !in ks by {
        forall i | 0 <= i < |ks|
          ensures ks[i] != last.id
        {
          assert ks[i] == init[i].id;
        }
      }
      KeysStep(nodes);
      forall i | 0 <= i < |nodes|
        ensures Keys(nodes)[i] == nodes[i].id
      {
        if i < n {
          assert nodes[i] == init[i];
        }
      }
    }
  }

  /** With unique ids no node is shadowed: each is the one its id looks up. */
  lemma {:induction false} UniqueIdsIndex(nodes: seq<Node>)
    requires UniqueIds(nodes)
    ensures forall i :: 0 <= i < |nodes| ==> Index(nodes)[nodes[i].id] == nodes[i]
  {
    if nodes != [] {
      var n := |nodes| - 1;
      var init, last := nodes[..n], nodes[n];
      UniqueInit(nodes);
      UniqueIdsIndex(init);
      assert Index(nodes) == Index(init)[last.id := last];
      forall i | 0 <= i < n
        ensures Index(nodes)[nodes[i].id] == nodes[i]
      {
        assert nodes[i] == init[i];
      }
    }
  }

  /**
   * With unique ids, the traversal's start is the first SOURCE node of the
   * listing, and there is a start exactly when the listing has a SOURCE node.
   */
  lemma StartIsFirstListedSource(nodes: seq<Node>)
    requires UniqueIds(nodes)
    ensures var r := FirstSource(Keys(nodes), Index(nodes));
      && (r.Some? <==> exists i :: 0 <= i < |nodes| && nodes[i].body.Source?)
      && (r.Some? ==> r.value < |nodes| && nodes[r.value].body.Source?
                      && Keys(nodes)[r.value] == nodes[r.value].id
                      && forall j :: 0 <= j < r.value ==> !nodes[j].body.Source?)
  {
    UniqueIdsKeys(nodes);
    UniqueIdsIndex(nodes);
    var order, index := Keys(nodes), Index(nodes);
    forall i | 0 <= i < |nodes|
      ensures IsSourceKey(index, order[i]) <==> nodes[i].body.Source?
    {
      assert order[i] == nodes[i].id;
    }
    var r := FirstSource(order, index);
    if r.None? {
      forall i | 0 <= i < |nodes|
        ensures !nodes[i].body.Source?
      {
        assert !IsSourceKey(index, order[i]);
      }
    }
  }

  /**
   * Without any SOURCE node in the listing, no id of the table leads to one,
   * whatever ids repeat.
   */
  lemma NoSourceNodeNoStart(nodes: seq<Node>)
    requires forall i :: 0 <= i < |nodes| ==> !nodes[i].body.Source?
    ensures FirstSource(Keys(nodes), Index(nodes)) == None
  {
    var order, index := Keys(nodes), Index(nodes);
    forall j | 0 <= j < |order|
      ensures !IsSourceKey(index, order[j])
    {
      IndexHoldsListedNodes(nodes, order[j]);
      var n := index[order[j]];
      assert n in nodes;
    }
  }
}
