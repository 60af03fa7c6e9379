/** services/mcp_server/tools.py: a trace's rows, in any order, linked into a forest.

    The nodes are on the heap, and are linked in place while the rows are read. */
module TraceTree {
  import opened Wrappers
  import opened Aggregates
  import opened Telemetry

  function SpanOf(): Event -> Id { (e: Event) => e.span }

  function Ids(rows: seq<Event>): seq<Id> { Mapped(SpanOf(), rows) }

  function ParentIs(id: Id): Event -> bool { (e: Event) => e.parent == Some(id) }

  /** The rows that no row of the table `ids` claims as a child. */
  function Unparented(ids: set<Id>): Event -> bool {
    (e: Event) => e.parent.None? || e.parent.value !in ids
  }

  function Orphaned(ids: set<Id>): Event -> bool {
    (e: Event) => e.parent.Some? && e.parent.value !in ids
  }

  function IdSet(rows: seq<Event>): set<Id> { set i | 0 <= i < |rows| :: rows[i].span }

  /** The ids of the rows that satisfy `p`, in row order. */
  function Selected(p: Event -> bool, rows: seq<Event>): seq<Id> {
    if rows == [] then []
    else
      var last := rows[|rows| - 1];
      Selected(p, rows[..|rows| - 1]) + if p(last) then [last.span] else []
  }

  function ChildIds(rows: seq<Event>, id: Id): seq<Id> { Selected(ParentIs(id), rows) }

  function RootIds(rows: seq<Event>): seq<Id> { Selected(Unparented(IdSet(rows)), rows) }

  function OrphanIds(rows: seq<Event>): seq<Id> { Selected(Orphaned(IdSet(rows)), rows) }

  // ----- the builder -----

  /** A node of the result: a dictionary whose children list grows while rows are linked. */
  class Node {
    const row: Event
    var children: seq<Node>
    var orphan: bool

    constructor (row: Event)
      ensures this.row == row && children == [] && !orphan
    {
      this.row, children, orphan := row, [], false;
    }
  }

  lemma SelectedAppend(p: Event -> bool, rows: seq<Event>, k: nat)
    requires k < |rows|
    ensures Selected(p, rows[..k + 1]) == Selected(p, rows[..k]) + if p(rows[k]) then [rows[k].span] else []
  {
    assert rows[..k + 1][..k] == rows[..k];
  }

  /** One node per span id, each holding a row with that id. */
  ghost predicate Indexed(nodes: map<Id, Node>, rows: seq<Event>) {
    && nodes.Keys == IdSet(rows)
    && forall id :: id in nodes ==> nodes[id].row in rows && nodes[id].row.span == id
  }

  method IndexRows(rows: seq<Event>) returns (nodes: map<Id, Node>)
    ensures Indexed(nodes, rows)
    ensures forall id :: id in nodes ==> fresh(nodes[id]) && nodes[id].children == [] && !nodes[id].orphan
  {
    nodes := map[];
    for k := 0 to |rows|
      invariant Indexed(nodes, rows[..k])
      invariant forall id :: id in nodes ==> fresh(nodes[id]) && nodes[id].children == [] && !nodes[id].orphan
    {
      var node := new Node(rows[k]);
      assert rows[..k + 1] == rows[..k] + [rows[k]];
      assert IdSet(rows[..k + 1]) == IdSet(rows[..k]) + {rows[k].span};
      nodes := nodes[rows[k].span := node];
    }
    assert rows[..|rows|] == rows;
  }

  /** `ns` are the table's nodes for `ids`, in order. */
  ghost predicate Lists(nodes: map<Id, Node>, ns: seq<Node>, ids: seq<Id>) {
    && |ns| == |ids|
    && forall i :: 0 <= i < |ns| ==> ids[i] in nodes && ns[i] == nodes[ids[i]]
  }

  /** The link fields of all nodes, as values. */
  datatype Links = Links(children: map<Id, seq<Node>>, roots: seq<Node>, orphans: seq<Id>)

  function Link(links: Links, e: Event, node: Node): Links {
    if e.parent.None? then links.(roots := links.roots + [node])
    else if e.parent.value in links.children then
      links.(children := links.children[e.parent.value := links.children[e.parent.value] + [node]])
    else links.(roots := links.roots + [node], orphans := links.orphans + [e.span])
  }

  /** The links after the first `k` rows. */
  ghost function LinkUpTo(nodes: map<Id, Node>, rows: seq<Event>, k: nat): (links: Links)
    requires k <= |rows| && Indexed(nodes, rows)
    ensures links.children.Keys == nodes.Keys
  {
    if k == 0 then Links(map id | id in nodes :: [], [], [])
    else Link(LinkUpTo(nodes, rows, k - 1), rows[k - 1], nodes[rows[k - 1].span])
  }

  lemma ListsAppend(nodes: map<Id, Node>, ns: seq<Node>, ids: seq<Id>, id: Id)
    requires Lists(nodes, ns, ids) && id in nodes
    ensures Lists(nodes, ns + [nodes[id]], ids + [id])
  {
  }

  lemma {:induction false} RootsLinked(nodes: map<Id, Node>, rows: seq<Event>, k: nat)
    requires k <= |rows| && Indexed(nodes, rows)
    ensures Lists(nodes, LinkUpTo(nodes, rows, k).roots, Selected(Unparented(IdSet(rows)), rows[..k]))
  {
    if k > 0 {
      RootsLinked(nodes, rows, k - 1);
      SelectedAppend(Unparented(IdSet(rows)), rows, k - 1);
      ListsAppend(nodes, LinkUpTo(nodes, rows, k - 1).roots, Selected(Unparented(IdSet(rows)), rows[..k - 1]),
        rows[k - 1].span);
    }
  }

  lemma {:induction false} OrphansLinked(nodes: map<Id, Node>, rows: seq<Event>, k: nat)
    requires k <= |rows| && Indexed(nodes, rows)
    ensures LinkUpTo(nodes, rows, k).orphans == Selected(Orphaned(IdSet(rows)), rows[..k])
  {
    if k > 0 {
      OrphansLinked(nodes, rows, k - 1);
      SelectedAppend(Orphaned(IdSet(rows)), rows, k - 1);
    }
  }

  lemma {:induction false} ChildrenLinked(nodes: map<Id, Node>, rows: seq<Event>, k: nat, id: Id)
    requires k <= |rows| && Indexed(nodes, rows) && id in nodes
    ensures Lists(nodes, LinkUpTo(nodes, rows, k).children[id], ChildIds(rows[..k], id))
  {
    if k > 0 {
      hide Lists, Selected, IdSet;
      ChildrenLinked(nodes, rows, k - 1, id);
      SelectedAppend(ParentIs(id), rows, k - 1);
      ListsAppend(nodes, LinkUpTo(nodes, rows, k - 1).children[id], ChildIds(rows[..k - 1], id), rows[k - 1].span);
    }
  }

  ghost predicate Mirrors(nodes: map<Id, Node>, links: Links)
    reads nodes.Values
  {
    && links.children.Keys == nodes.Keys
    && forall id :: id in nodes ==>
       nodes[id].children == links.children[id] && (nodes[id].orphan <==> id in links.orphans)
  }

  method LinkRow(nodes: map<Id, Node>, e: Event, roots: seq<Node>, orphans: nat, ghost links: Links)
    returns (roots': seq<Node>, orphans': nat)
    requires e.span in nodes && forall id :: id in nodes ==> nodes[id].row.span == id
    requires Mirrors(nodes, links) && roots == links.roots && orphans == |links.orphans|
    modifies nodes.Values
    ensures var links' := Link(links, e, nodes[e.span]);
            Mirrors(nodes, links') && roots' == links'.roots && orphans' == |links'.orphans|
  {
    var node := nodes[e.span];
    roots', orphans' := roots, orphans;
    if e.parent.None? {
      roots' := roots + [node];
    } else if e.parent.value in nodes {
      var parent := nodes[e.parent.value];
      parent.children := parent.children + [node];
    } else {
      node.orphan := true;
      orphans' := orphans + 1;
      roots' := roots + [node];
    }
  }

  /** Links every row under its parent if the table has it, and at the top otherwise. The heap
      structure is the one the pure functions describe, for every input, repeated ids included. */
  method BuildTree(rows: seq<Event>) returns (nodes: map<Id, Node>, roots: seq<Node>, orphans: nat)
    ensures Indexed(nodes, rows)
    ensures forall id :: id in nodes ==> fresh(nodes[id]) && Lists(nodes, nodes[id].children, ChildIds(rows, id))
    ensures Lists(nodes, roots, RootIds(rows))
    ensures orphans == |OrphanIds(rows)|
    ensures forall id :: id in nodes ==> (nodes[id].orphan <==> id in OrphanIds(rows))
  {
    nodes := IndexRows(rows);
    roots, orphans := [], 0;
    for k := 0 to |rows|
      invariant forall id :: id in nodes ==> fresh(nodes[id])
      invariant var links := LinkUpTo(nodes, rows, k);
                Mirrors(nodes, links) && roots == links.roots && orphans == |links.orphans|
    {
      roots, orphans := LinkRow(nodes, rows[k], roots, orphans, LinkUpTo(nodes, rows, k));
    }
    assert rows[..|rows|] == rows;
    RootsLinked(nodes, rows, |rows|);
    OrphansLinked(nodes, rows, |rows|);
    forall id | id in nodes {
      ChildrenLinked(nodes, rows, |rows|, id);
    }
  }
}
