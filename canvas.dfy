/** The canvas's edit handlers: patching a node's data, deleting a node with
    the edges that touch it, and adding a blank node. Each is a transform of
    the canvas state that React's setters then store. */
module Canvas {
  import opened Wrappers
  import opened Graph
  import opened Lists

  /** The parts of the canvas the handlers change. */
  datatype CanvasState = CanvasState(nodes: seq<Node>, edges: seq<Edge>, selected: Option<Node>, sidebarOpen: bool)

  function NodeId(n: Node): string { n.id }

  /** `{ ...node, data: { ...node.data, ...patch } }`. */
  function Patched(n: Node, patch: seq<Entry>): Node
  {
    n.(data := Merge(n.data, patch))
  }

  // ---------------------------------------------------------------------
  // handleNodeUpdate
  // ---------------------------------------------------------------------

  /** The `map` over the node list: every node with the id gets the patch. */
  function UpdateNodes(nodes: seq<Node>, id: string, patch: seq<Entry>): (r: seq<Node>)
    ensures |r| == |nodes|
    ensures forall i :: 0 <= i < |nodes| && nodes[i].id != id ==> r[i] == nodes[i]
    ensures forall i :: 0 <= i < |nodes| && nodes[i].id == id ==> r[i] == Patched(nodes[i], patch)
  {
    seq(|nodes|, i requires 0 <= i < |nodes| => if nodes[i].id == id then Patched(nodes[i], patch) else nodes[i])
  }

  /** `prev && prev.id === id ? { ...prev, data: ... } : prev`. */
  function UpdateSelected(selected: Option<Node>, id: string, patch: seq<Entry>): Option<Node>
  {
    if selected.Some? && selected.value.id == id then Some(Patched(selected.value, patch)) else selected
  }

  function HandleNodeUpdate(c: CanvasState, id: string, patch: seq<Entry>): CanvasState
  {
    c.(nodes := UpdateNodes(c.nodes, id, patch), selected := UpdateSelected(c.selected, id, patch))
  }

  /**
   * A patched node keeps its id, type and position; each data field reads the
   * patch's value where the patch has one and the old value elsewhere.
   */
  lemma PatchedFields(n: Node, patch: seq<Entry>)
    ensures var m := Patched(n, patch);
      && m.id == n.id && m.kind == n.kind && m.position == n.position
      && forall key :: Lookup(m.data, key) == if Lookup(patch, key).Some? then Lookup(patch, key) else Lookup(n.data, key)
  {
    forall key
      ensures Lookup(Merge(n.data, patch), key) == if Lookup(patch, key).Some? then Lookup(patch, key) else Lookup(n.data, key)
    {
      MergeLookup(n.data, patch, key);
    }
  }

  /**
   * After an update the node list keeps its ids in order, and a selection that
   * was a node of the list is still the same node of the list: the list and
   * the side panel never disagree.
   */
  lemma NodeUpdateConsistent(c: CanvasState, id: string, patch: seq<Entry>, i: nat)
    requires i < |c.nodes| && c.selected == Some(c.nodes[i])
    ensures var d := HandleNodeUpdate(c, id, patch);
      && |d.nodes| == |c.nodes|
      && (forall j :: 0 <= j < |c.nodes| ==> d.nodes[j].id == c.nodes[j].id)
      && d.selected == Some(d.nodes[i])
      && d.edges == c.edges && d.sidebarOpen == c.sidebarOpen
  {
    var d := HandleNodeUpdate(c, id, patch);
    forall j | 0 <= j < |c.nodes| ensures d.nodes[j].id == c.nodes[j].id {
      PatchedFields(c.nodes[j], patch);
    }
  }

  /** An empty patch leaves the canvas as it was. */
  lemma EmptyPatchIdentity(c: CanvasState, id: string)
    ensures HandleNodeUpdate(c, id, []) == c
  {
    var d := HandleNodeUpdate(c, id, []);
    forall j | 0 <= j < |c.nodes| ensures d.nodes[j] == c.nodes[j] {
      MergeEmpty(c.nodes[j].data);
    }
    if c.selected.Some? {
      MergeEmpty(c.selected.value.data);
    }
  }

  // ---------------------------------------------------------------------
  // handleDeleteNode
  // ---------------------------------------------------------------------

  /** The edge has the node at one of its ends. */
  predicate Touches(e: Edge, id: string)
  {
    e.source == id || e.target == id
  }

  /** `eds.filter(edge => edge.source !== id && edge.target !== id)`. */
  function Detach(edges: seq<Edge>, id: string): (r: seq<Edge>)
    ensures |r| <= |edges|
    ensures forall i :: 0 <= i < |r| ==> r[i] in edges && !Touches(r[i], id)
    ensures forall i :: 0 <= i < |edges| && !Touches(edges[i], id) ==> edges[i] in r
  {
    if edges == [] then []
    else (if Touches(edges[0], id) then [] else [edges[0]]) + Detach(edges[1..], id)
  }

  /** The surviving edges keep their order: detaching distributes over concatenation. */
  lemma {:induction false} DetachAppend(a: seq<Edge>, b: seq<Edge>, id: string)
    ensures Detach(a + b, id) == Detach(a, id) + Detach(b, id)
  {
    if a != [] {
      var ab := a + b;
      var head := if Touches(a[0], id) then [] else [a[0]];
      assert ab[0] == a[0] && ab[1..] == a[1..] + b;
      assert Detach(ab, id) == head + Detach(a[1..] + b, id);
      DetachAppend(a[1..], b, id);
      assert Detach(a, id) == head + Detach(a[1..], id);
    } else {
      assert a + b == b;
    }
  }

  /** Deleting a node no edge touches leaves the edges alone. */
  lemma {:induction false} DetachUntouched(edges: seq<Edge>, id: string)
    requires forall i :: 0 <= i < |edges| ==> !Touches(edges[i], id)
    ensures Detach(edges, id) == edges
  {
    if edges != [] {
      DetachUntouched(edges[1..], id);
      assert [edges[0]] + edges[1..] == edges;
    }
  }

  function HandleDeleteNode(c: CanvasState, id: string): CanvasState
  {
    CanvasState(Without(c.nodes, NodeId, id), Detach(c.edges, id), None, false)
  }

  /**
   * After a delete no node has the id and no edge mentions it; every other node
   * and every edge not touching it is still there; the panel is closed and
   * nothing is selected.
   */
  lemma DeleteNodeEffect(c: CanvasState, id: string)
    ensures var d := HandleDeleteNode(c, id);
      && (forall i :: 0 <= i < |d.nodes| ==> d.nodes[i].id != id && d.nodes[i] in c.nodes)
      && (forall i :: 0 <= i < |c.nodes| && c.nodes[i].id != id ==> c.nodes[i] in d.nodes)
      && (forall i :: 0 <= i < |d.edges| ==> d.edges[i].source != id && d.edges[i].target != id)
      && (forall i :: 0 <= i < |c.edges| && !Touches(c.edges[i], id) ==> c.edges[i] in d.edges)
      && d.selected == None && !d.sidebarOpen
  {
    var d := HandleDeleteNode(c, id);
    forall i | 0 <= i < |d.nodes| ensures d.nodes[i].id != id && d.nodes[i] in c.nodes {
      assert NodeId(d.nodes[i]) != id;
    }
    forall i | 0 <= i < |c.nodes| && c.nodes[i].id != id ensures c.nodes[i] in d.nodes {
      assert NodeId(c.nodes[i]) != id;
    }
  }

  // ---------------------------------------------------------------------
  // handleAddNode
  // ---------------------------------------------------------------------

  /** The blank node the toolbar button adds, with its random id and position given. */
  function BlankNode(id: string, x: int, y: int): Node
  {
    Node(id, "custom", Position(x, y),
      [Entry("label", "New Node"), Entry("type", "Custom"), Entry("category", "Passive Enum")])
  }

  /** `nds.concat(newNode)`. */
  function HandleAddNode(c: CanvasState, id: string, x: int, y: int): CanvasState
  {
    c.(nodes := c.nodes + [BlankNode(id, x, y)])
  }

  /** Adding a node appends exactly one node, labelled `New Node` in the
      `Passive Enum` category, after the unchanged existing ones. */
  lemma AddNodeEffect(c: CanvasState, id: string, x: int, y: int)
    ensures var d := HandleAddNode(c, id, x, y);
      && |d.nodes| == |c.nodes| + 1
      && d.nodes[..|c.nodes|] == c.nodes
      && d.nodes[|c.nodes|].id == id
      && Lookup(d.nodes[|c.nodes|].data, "label") == Some("New Node")
      && Lookup(d.nodes[|c.nodes|].data, "category") == Some("Passive Enum")
      && d.edges == c.edges && d.selected == c.selected && d.sidebarOpen == c.sidebarOpen
  {
    var d := HandleAddNode(c, id, x, y);
    assert d.nodes[..|c.nodes|] == c.nodes;
  }
}
