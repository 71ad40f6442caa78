/**
 * An abstract host document: the nodes the page and the overlay controller know about,
 * each with the id, parent, text and opacity the controller reads or writes.
 */
module Document {
  import opened Wrappers
  import Position

  /** The fixed id of the overlay element (src/index.js:23). */
  const OverlayId: string := "screen-res-display"

  /** Where an element hangs: `document.body` or `document.documentElement`. */
  datatype Host = Body | Root

  /**
   * The inline style the overlay gets from its configuration. The remaining constant
   * declarations of `createElement` (padding, z-index, shadow, transition, ...) carry no
   * behaviour and are not represented.
   */
  datatype Look = Look(
    insets: Position.Styles,
    color: string,
    backgroundColor: string,
    fontSize: string
  )

  /**
   * An element. `parent` is None once it has been removed from the document; `opacity`
   * is the inline `style.opacity` string ("" while unset).
   */
  datatype Node = Node(id: string, parent: Option<Host>, text: string, opacity: string, look: Look)

  /** The element is in the document and carries the id. */
  predicate Holds(n: Node, id: string)
  {
    n.parent.Some? && n.id == id
  }

  /**
   * `document.getElementById(id)` over the nodes in the order they were inserted (a node
   * reference is its index): the first element in the document with that id, if any. While
   * at most one element carries the id this agrees with the search in tree order.
   */
  function GetElementById(nodes: seq<Node>, id: string): (r: Option<nat>)
    ensures r.Some? ==> r.value < |nodes| && Holds(nodes[r.value], id)
    ensures r.Some? ==> forall j :: 0 <= j < r.value ==> !Holds(nodes[j], id)
    ensures r.None? ==> forall j :: 0 <= j < |nodes| ==> !Holds(nodes[j], id)
  {
    SearchFrom(nodes, id, 0)
  }

  function SearchFrom(nodes: seq<Node>, id: string, k: nat): (r: Option<nat>)
    requires k <= |nodes|
    requires forall j :: 0 <= j < k ==> !Holds(nodes[j], id)
    ensures r.Some? ==> k <= r.value < |nodes| && Holds(nodes[r.value], id)
    ensures r.Some? ==> forall j :: 0 <= j < r.value ==> !Holds(nodes[j], id)
    ensures r.None? ==> forall j :: 0 <= j < |nodes| ==> !Holds(nodes[j], id)
    decreases |nodes| - k
  {
    if k == |nodes| then None
    else if Holds(nodes[k], id) then Some(k)
    else SearchFrom(nodes, id, k + 1)
  }

  /** No two distinct elements in the document carry the id. */
  predicate AtMostOne(nodes: seq<Node>, id: string)
  {
    forall i, j {:trigger Holds(nodes[i], id), Holds(nodes[j], id)} ::
      0 <= i < |nodes| && 0 <= j < |nodes| && Holds(nodes[i], id) && Holds(nodes[j], id) ==> i == j
  }
}
