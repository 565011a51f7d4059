/**
 * The construction campaign as a tree of work items, and the flat
 * id-to-node index built from it. Ids encode a node's position: the k-th
 * top-level item is "k", and the k-th child of the item with id p is
 * "p.k".
 */
module CampaignTree {
  import opened Wrappers

  datatype NodeStatus = Planned | InProgress | Complete

  /**
   * A work item. Its label and description are display text that no
   * operation reads, and are not modelled. A missing `children` list and an
   * empty one behave alike, so both are `[]`.
   */
  datatype TreeNode = TreeNode(
    id: string,
    status: NodeStatus,
    simulationRoute: Option<string>,
    children: seq<TreeNode>)

  function Leaf(id: string): TreeNode
  {
    TreeNode(id, Planned, None, [])
  }

  function Branch(id: string, children: seq<TreeNode>): TreeNode
  {
    TreeNode(id, Planned, None, children)
  }

  /** The campaign's six phases, with their work packages and sub-packages. */
  const Phase1: TreeNode :=
    Branch("1", [
      Leaf("1.1"),
      Branch("1.2", [
        Leaf("1.2.1"),
        Leaf("1.2.2"),
        Leaf("1.2.3")]),
      Leaf("1.3"),
      Leaf("1.4"),
      Leaf("1.5")])

  const Phase2: TreeNode :=
    Branch("2", [
      Leaf("2.1"),
      Branch("2.2", [
        Leaf("2.2.1"),
        Leaf("2.2.2")]),
      Leaf("2.3"),
      Leaf("2.4"),
      Leaf("2.5")])

  const Phase3: TreeNode :=
    Branch("3", [
      Leaf("3.1"),
      Leaf("3.2"),
      Leaf("3.3"),
      Leaf("3.4"),
      Leaf("3.5")])

  const Phase4: TreeNode :=
    Branch("4", [
      Leaf("4.1"),
      Branch("4.2", [
        Leaf("4.2.1"),
        Leaf("4.2.2")]),
      Leaf("4.3"),
      Leaf("4.4")])

  const Phase5: TreeNode :=
    Branch("5", [
      Branch("5.1", [
        Leaf("5.1.1"),
        Leaf("5.1.2")]),
      Leaf("5.2"),
      Leaf("5.3"),
      Leaf("5.4"),
      Leaf("5.5")])

  const Phase6: TreeNode :=
    Branch("6", [
      Leaf("6.1"),
      Leaf("6.2"),
      Leaf("6.3"),
      Leaf("6.4"),
      Leaf("6.5"),
      Leaf("6.6")])

  const CampaignTree: seq<TreeNode> := [Phase1, Phase2, Phase3, Phase4, Phase5, Phase6]

  /** Every node of a forest at every depth, in pre-order: a node, then its descendants, then its next sibling. */
  function Flatten(nodes: seq<TreeNode>): seq<TreeNode>
    decreases nodes
  {
    if nodes == [] then []
    else [nodes[0]] + Flatten(nodes[0].children) + Flatten(nodes[1..])
  }

  /** The digit character for 1..9. */
  function DigitChar(k: int): (c: char)
    requires 1 <= k <= 9
    ensures '1' <= c <= '9'
  {
    ('0' as int + k) as char
  }

  /** The numeric value of a character that is a digit. */
  function DigitValue(c: char): int
  {
    c as int - '0' as int
  }

  /**
   * The id scheme: the k-th node of a forest whose parent has id p has id
   * "p.k" (just "k" at the top), with at most nine siblings.
   */
  predicate WellNumbered(nodes: seq<TreeNode>, prefix: string)
  {
    WellNumberedFrom(nodes, prefix, 0)
  }

  /** The id scheme for a run of siblings whose first is the (first + 1)-th child. */
  predicate WellNumberedFrom(nodes: seq<TreeNode>, prefix: string, first: nat)
    decreases nodes
  {
    && first + |nodes| <= 9
    && forall i :: 0 <= i < |nodes| ==>
         && nodes[i].id == prefix + [DigitChar(first + i + 1)]
         && WellNumberedFrom(nodes[i].children, nodes[i].id + ".", 0)
  }

  /** `prefix` is a proper prefix of `id`. */
  predicate IdUnder(id: string, prefix: string)
  {
    |id| > |prefix| && id[..|prefix|] == prefix
  }

  predicate UniqueIds(s: seq<TreeNode>)
  {
    forall i, j :: 0 <= i < j < |s| ==> s[i].id != s[j].id
  }

  /**
   * Every id in a well-numbered forest extends the prefix by one of the
   * siblings' digits, and every id in the first sibling's subtree by that
   * sibling's digit.
   */
  lemma {:induction false} FlattenUnder(nodes: seq<TreeNode>, prefix: string, first: nat)
    requires WellNumberedFrom(nodes, prefix, first)
    ensures forall x :: x in Flatten(nodes) ==>
      IdUnder(x.id, prefix) && first + 1 <= DigitValue(x.id[|prefix|]) <= first + |nodes|
    ensures nodes != [] ==> forall x :: x in [nodes[0]] + Flatten(nodes[0].children) ==>
      IdUnder(x.id, prefix) && DigitValue(x.id[|prefix|]) == first + 1
    decreases nodes
  {
    if nodes != [] {
      var n := nodes[0];
      var p := n.id + ".";
      FlattenUnder(n.children, p, 0);
      assert WellNumberedFrom(nodes[1..], prefix, first + 1) by {
        forall i | 0 <= i < |nodes[1..]|
          ensures nodes[1..][i] == nodes[i + 1]
        {
        }
      }
      FlattenUnder(nodes[1..], prefix, first + 1);
      forall x | x in [n] + Flatten(n.children)
        ensures IdUnder(x.id, prefix) && DigitValue(x.id[|prefix|]) == first + 1
      {
        if x != n {
          assert x in Flatten(n.children);
          assert x.id[..|p|] == p;
          assert x.id[..|prefix|] == p[..|prefix|];
          assert x.id[|prefix|] == p[|prefix|];
        }
      }
      assert Flatten(nodes) == ([n] + Flatten(n.children)) + Flatten(nodes[1..]);
    }
  }

  /** Two id-unique runs whose ids do not meet make an id-unique run. */
  lemma ConcatUnique(a: seq<TreeNode>, b: seq<TreeNode>)
    requires UniqueIds(a) && UniqueIds(b)
    requires forall x, y :: x in a && y in b ==> x.id != y.id
    ensures UniqueIds(a + b)
  {
    forall i, j | 0 <= i < j < |a + b|
      ensures (a + b)[i].id != (a + b)[j].id
    {
      if j < |a| {
      } else if i < |a| {
        assert (a + b)[i] in a && (a + b)[j] in b;
      } else {
        assert (a + b)[i] == b[i - |a|] && (a + b)[j] == b[j - |a|];
      }
    }
  }

  /** In a well-numbered forest no two nodes, at any depth, share an id. */
  lemma {:induction false} WellNumberedIdsAreUnique(nodes: seq<TreeNode>, prefix: string, first: nat)
    requires WellNumberedFrom(nodes, prefix, first)
    ensures UniqueIds(Flatten(nodes))
    decreases nodes
  {
    if nodes != [] {
      var n := nodes[0];
      var p := n.id + ".";
      assert WellNumberedFrom(nodes[1..], prefix, first + 1) by {
        forall i | 0 <= i < |nodes[1..]|
          ensures nodes[1..][i] == nodes[i + 1]
        {
        }
      }
      WellNumberedIdsAreUnique(n.children, p, 0);
      WellNumberedIdsAreUnique(nodes[1..], prefix, first + 1);
      FlattenUnder(n.children, p, 0);
      FlattenUnder(nodes, prefix, first);
      FlattenUnder(nodes[1..], prefix, first + 1);
      ConcatUnique([n], Flatten(n.children));
      ConcatUnique([n] + Flatten(n.children), Flatten(nodes[1..]));
      assert Flatten(nodes) == ([n] + Flatten(n.children)) + Flatten(nodes[1..]);
    }
  }

  lemma Package12IsWellNumbered()
    ensures Phase1.children[1].id == "1.2" && WellNumbered(Phase1.children[1].children, "1.2.")
  {
  }

  lemma Phase1IsWellNumbered()
    ensures Phase1.id == "1" && WellNumbered(Phase1.children, Phase1.id + ".")
  {
    Package12IsWellNumbered();
  }

  lemma Package22IsWellNumbered()
    ensures Phase2.children[1].id == "2.2" && WellNumbered(Phase2.children[1].children, "2.2.")
  {
  }

  lemma Phase2IsWellNumbered()
    ensures Phase2.id == "2" && WellNumbered(Phase2.children, Phase2.id + ".")
  {
    Package22IsWellNumbered();
  }

  lemma Phase3IsWellNumbered()
    ensures Phase3.id == "3" && WellNumbered(Phase3.children, Phase3.id + ".")
  {
  }

  lemma Package42IsWellNumbered()
    ensures Phase4.children[1].id == "4.2" && WellNumbered(Phase4.children[1].children, "4.2.")
  {
  }

  lemma Phase4IsWellNumbered()
    ensures Phase4.id == "4" && WellNumbered(Phase4.children, Phase4.id + ".")
  {
    Package42IsWellNumbered();
  }

  lemma Package51IsWellNumbered()
    ensures Phase5.children[0].id == "5.1" && WellNumbered(Phase5.children[0].children, "5.1.")
  {
  }

  lemma Phase5IsWellNumbered()
    ensures Phase5.id == "5" && WellNumbered(Phase5.children, Phase5.id + ".")
  {
    Package51IsWellNumbered();
  }

  lemma Phase6IsWellNumbered()
    ensures Phase6.id == "6" && WellNumbered(Phase6.children, Phase6.id + ".")
  {
  }

  /** The campaign's ids follow the scheme: "1" to "6" at the top, "p.k" below. */
  lemma CampaignTreeIsWellNumbered()
    ensures WellNumbered(CampaignTree, "")
  {
    forall i | 0 <= i < |CampaignTree|
      ensures CampaignTree[i].id == "" + [DigitChar(i + 1)]
      ensures WellNumberedFrom(CampaignTree[i].children, CampaignTree[i].id + ".", 0)
    {
      assert "" + [DigitChar(i + 1)] == [DigitChar(i + 1)];
      if i == 0 {
        Phase1IsWellNumbered();
      } else if i == 1 {
        Phase2IsWellNumbered();
      } else if i == 2 {
        Phase3IsWellNumbered();
      } else if i == 3 {
        Phase4IsWellNumbered();
      } else if i == 4 {
        Phase5IsWellNumbered();
      } else {
        Phase6IsWellNumbered();
      }
    }
  }

  /** The ids of a run of nodes. */
  function Ids(s: seq<TreeNode>): set<string>
  {
    set x | x in s :: x.id
  }

  /** `map.set` of each node under its id, in order: a later node replaces an earlier one with the same id. */
  function SetEach(s: seq<TreeNode>, m: map<string, TreeNode>): map<string, TreeNode>
    decreases s
  {
    if s == [] then m else SetEach(s[1..], m[s[0].id := s[0]])
  }

  /**
   * What `buildNodeMap(nodes, m)` leaves in `m`: each node set under its id,
   * then its children's entries, then its next sibling's.
   */
  function InsertAll(nodes: seq<TreeNode>, m: map<string, TreeNode>): (r: map<string, TreeNode>)
    ensures r.Keys == m.Keys + Ids(Flatten(nodes))
    decreases nodes
  {
    if nodes == [] then m
    else
      IdsOfFlattenCons(nodes);
      InsertAll(nodes[1..], InsertAll(nodes[0].children, m[nodes[0].id := nodes[0]]))
  }

  /** The ids of a flattened run: the first node's, its descendants', and its siblings'. */
  lemma IdsOfFlattenCons(nodes: seq<TreeNode>)
    requires nodes != []
    ensures Ids(Flatten(nodes)) == {nodes[0].id} + Ids(Flatten(nodes[0].children)) + Ids(Flatten(nodes[1..]))
  {
    var a, b, c := [nodes[0]], Flatten(nodes[0].children), Flatten(nodes[1..]);
    assert Flatten(nodes) == a + b + c;
    IdsAppend(a + b, c);
    IdsAppend(a, b);
    assert nodes[0] in a;
    assert Ids(a) == {nodes[0].id};
  }

  /** The ids of a concatenation are the ids of its two parts. */
  lemma IdsAppend(a: seq<TreeNode>, b: seq<TreeNode>)
    ensures Ids(a + b) == Ids(a) + Ids(b)
  {
    forall id | id in Ids(a + b) ensures id in Ids(a) + Ids(b) {
      var x :| x in a + b && x.id == id;
      if x in a {
        assert id in Ids(a);
      } else {
        assert id in Ids(b);
      }
    }
    forall id | id in Ids(a) + Ids(b) ensures id in Ids(a + b) {
      if id in Ids(a) {
        var x :| x in a && x.id == id;
        assert x in a + b;
      } else {
        var x :| x in b && x.id == id;
        assert x in a + b;
      }
    }
  }

  lemma {:induction false} SetEachAppend(a: seq<TreeNode>, b: seq<TreeNode>, m: map<string, TreeNode>)
    ensures SetEach(a + b, m) == SetEach(b, SetEach(a, m))
    decreases a
  {
    if a == [] {
      assert a + b == b;
    } else {
      assert (a + b)[1..] == a[1..] + b;
      SetEachAppend(a[1..], b, m[a[0].id := a[0]]);
    }
  }

  /** The recursive insertion is the same as setting every node of the pre-order flattening in turn. */
  lemma {:induction false} InsertAllIsFlatSetting(nodes: seq<TreeNode>, m: map<string, TreeNode>)
    ensures InsertAll(nodes, m) == SetEach(Flatten(nodes), m)
    decreases nodes
  {
    if nodes != [] {
      var n := nodes[0];
      var m1 := m[n.id := n];
      InsertAllIsFlatSetting(n.children, m1);
      InsertAllIsFlatSetting(nodes[1..], InsertAll(n.children, m1));
      calc {
        SetEach(Flatten(nodes), m);
        { assert Flatten(nodes) == [n] + (Flatten(n.children) + Flatten(nodes[1..])); }
        SetEach(Flatten(n.children) + Flatten(nodes[1..]), m1);
        { SetEachAppend(Flatten(n.children), Flatten(nodes[1..]), m1); }
        SetEach(Flatten(nodes[1..]), SetEach(Flatten(n.children), m1));
      }
    }
  }

  /**
   * After setting the nodes of `s` into `m`: the keys are the old keys plus
   * the ids of `s`; an id that is not in `s` keeps its old entry; an id that
   * is in `s` maps to the last node of `s` with that id.
   */
  lemma {:induction false} SetEachLookup(s: seq<TreeNode>, m: map<string, TreeNode>, k: string)
    ensures k in SetEach(s, m) <==> k in m || k in Ids(s)
    ensures k !in Ids(s) && k in m ==> SetEach(s, m)[k] == m[k]
    ensures forall j :: 0 <= j < |s| && s[j].id == k && (forall j' :: j < j' < |s| ==> s[j'].id != k) ==>
      SetEach(s, m)[k] == s[j]
    decreases s
  {
    if s != [] {
      var m1 := m[s[0].id := s[0]];
      SetEachLookup(s[1..], m1, k);
      assert Ids(s) == {s[0].id} + Ids(s[1..]) by {
        assert forall x :: x in s <==> x == s[0] || x in s[1..];
      }
      forall j | 0 <= j < |s| && s[j].id == k && (forall j' :: j < j' < |s| ==> s[j'].id != k)
        ensures SetEach(s, m)[k] == s[j]
      {
        if j > 0 {
          assert s[1..][j - 1] == s[j];
          assert forall j' :: j - 1 < j' < |s[1..]| ==> s[1..][j'].id != k by {
            forall j' | j - 1 < j' < |s[1..]| ensures s[1..][j'].id != k {
              assert s[1..][j'] == s[j' + 1];
            }
          }
        } else {
          assert k !in Ids(s[1..]) by {
            forall x | x in s[1..] ensures x.id != k {
              var i :| 0 <= i < |s[1..]| && s[1..][i] == x;
              assert s[1..][i] == s[i + 1];
            }
          }
        }
      }
    }
  }

  /** With unique ids, the node set under an id is the one node of `s` with that id. */
  lemma UniqueSetEachLookup(s: seq<TreeNode>, m: map<string, TreeNode>, j: int)
    requires UniqueIds(s) && 0 <= j < |s|
    ensures s[j].id in SetEach(s, m) && SetEach(s, m)[s[j].id] == s[j]
  {
    SetEachLookup(s, m, s[j].id);
    assert s[j] in s;
  }

  /**
   * What `buildNodeMap(nodes, m)` does to `m`, for any starting map and any
   * ids: every node at every depth ends up keyed by its id, entries for ids
   * not in the forest are kept, and of several nodes sharing an id the one
   * visited last in pre-order wins.
   */
  lemma InsertAllLookup(nodes: seq<TreeNode>, m: map<string, TreeNode>, k: string)
    ensures InsertAll(nodes, m).Keys == m.Keys + Ids(Flatten(nodes))
    ensures k !in Ids(Flatten(nodes)) && k in m ==> InsertAll(nodes, m)[k] == m[k]
    ensures
      var s := Flatten(nodes);
      forall j :: 0 <= j < |s| && s[j].id == k && (forall j' :: j < j' < |s| ==> s[j'].id != k) ==>
        InsertAll(nodes, m)[k] == s[j]
  {
    InsertAllIsFlatSetting(nodes, m);
    SetEachLookup(Flatten(nodes), m, k);
    forall k' ensures k' in InsertAll(nodes, m) <==> k' in m || k' in Ids(Flatten(nodes)) {
      SetEachLookup(Flatten(nodes), m, k');
    }
  }

  /** A mutable id-to-node map. */
  class NodeMap {
    var entries: map<string, TreeNode>

    constructor()
      ensures entries == map[]
    {
      entries := map[];
    }

    method Set(id: string, node: TreeNode)
      modifies this
      ensures entries == old(entries)[id := node]
    {
      entries := entries[id := node];
    }
  }

  /**
   * `buildNodeMap`: sets every node of the forest, at every depth, into the
   * map passed in (which it changes and returns), node before children
   * before next sibling.
   */
  method BuildNodeMap(nodes: seq<TreeNode>, m: NodeMap) returns (r: NodeMap)
    modifies m
    ensures r == m
    ensures m.entries == InsertAll(nodes, old(m.entries))
    decreases nodes
  {
    ghost var start := m.entries;
    for i := 0 to |nodes|
      invariant InsertAll(nodes[i..], m.entries) == InsertAll(nodes, start)
    {
      var node := nodes[i];
      assert nodes[i..][1..] == nodes[i + 1..];
      m.Set(node.id, node);
      if node.children != [] {
        var _ := BuildNodeMap(node.children, m);
      }
    }
    assert nodes[|nodes|..] == [];
    r := m;
  }

  /** The index built once from the campaign. */
  const CampaignNodeMap: map<string, TreeNode> := InsertAll(CampaignTree, map[])

  /** Builds the campaign's index the way the module does at load time. */
  method BuildCampaignNodeMap() returns (r: NodeMap)
    ensures fresh(r) && r.entries == CampaignNodeMap
  {
    var m := new NodeMap();
    r := BuildNodeMap(CampaignTree, m);
  }

  /** The campaign's nodes at every depth, in pre-order. */
  const AllNodes: seq<TreeNode> := Flatten(CampaignTree)

  /**
   * In a well-numbered forest the ids are unique at every depth, and the
   * index built from it into an empty map holds every node under its own id
   * and nothing else.
   */
  lemma IndexIsExact(nodes: seq<TreeNode>)
    requires WellNumbered(nodes, "")
    ensures UniqueIds(Flatten(nodes))
    ensures InsertAll(nodes, map[]).Keys == Ids(Flatten(nodes))
    ensures forall j :: 0 <= j < |Flatten(nodes)| ==>
      InsertAll(nodes, map[])[Flatten(nodes)[j].id] == Flatten(nodes)[j]
  {
    var all := Flatten(nodes);
    WellNumberedIdsAreUnique(nodes, "", 0);
    InsertAllIsFlatSetting(nodes, map[]);
    forall k ensures k in SetEach(all, map[]) <==> k in Ids(all) {
      SetEachLookup(all, map[], k);
    }
    forall j | 0 <= j < |all| ensures SetEach(all, map[])[all[j].id] == all[j] {
      UniqueSetEachLookup(all, map[], j);
    }
  }

  /** The campaign's ids are unique, and its index holds every node under its own id and nothing else. */
  lemma CampaignNodeMapIsExact()
    ensures UniqueIds(AllNodes)
    ensures CampaignNodeMap.Keys == Ids(AllNodes)
    ensures forall j :: 0 <= j < |AllNodes| ==> CampaignNodeMap[AllNodes[j].id] == AllNodes[j]
  {
    CampaignTreeIsWellNumbered();
    IndexIsExact(CampaignTree);
  }

  /** `findNode`: the node with that id anywhere in the campaign, or nothing when there is none. */
  function FindNode(id: string): (r: Option<TreeNode>)
    ensures r.Some? <==> id in Ids(AllNodes)
    ensures r.Some? ==> r.value in AllNodes && r.value.id == id
  {
    CampaignNodeMapIsExact();
    if id in CampaignNodeMap then
      Some(CampaignNodeMap[id])
    else None
  }

  /** `getTopLevelIds`: the phases' ids in order, none of them with a dot. */
  function GetTopLevelIds(): (ids: seq<string>)
    ensures ids == ["1", "2", "3", "4", "5", "6"]
    ensures forall i :: 0 <= i < |ids| ==> '.' !in ids[i]
  {
    CampaignTreeIsWellNumbered();
    seq(|CampaignTree|, i requires 0 <= i < |CampaignTree| => CampaignTree[i].id)
  }
}
