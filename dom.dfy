/**
 * An abstract document, just large enough for what the colorbar service does
 * with it: create a `div`, set its `id`, `Object.assign` onto its `style`,
 * `appendChild` it to a host element, read its `parentNode` and
 * `removeChild` it again. Nodes are numbered in creation order; host
 * elements are opaque identities that exist outside the service.
 */
module DomModel {
  import opened Js

  type NodeId = nat
  type ElementId = nat

  /** The CSS properties the service writes, under their `style` property names. */
  datatype CssProperty =
    | Position | BoxSizing | Border | Cursor | Width | Height
    | Left | Right | Top | Bottom | Transform

  /** A node's inline `style`: the properties that have been set on it. */
  type Style = map<CssProperty, JsValue>

  /** What the service sets on a node it creates. */
  datatype NodeInfo = NodeInfo(tagName: string, id: string, style: Style)

  /** The exceptions a DOM call made by the service can raise. */
  datatype JsError = TypeError | NotFoundError

  /** How a call ended: normally, or by throwing. */
  datatype Outcome = Completed | Threw(error: JsError)

  /**
   * The document as a value: every node created so far, and the `parentNode`
   * link of each node that is currently attached to a host element.
   */
  datatype Dom = Dom(nodes: seq<NodeInfo>, parentOf: map<NodeId, ElementId>)

  /** The identity `document.createElement` gives to the next node. */
  function NextNode(d: Dom): NodeId {
    |d.nodes|
  }

  /** `document.createElement(tag)`: a new detached node with no id and an empty style. */
  function Created(d: Dom, tag: string): Dom {
    d.(nodes := d.nodes + [NodeInfo(tag, "", map[])])
  }

  /** `node.id = id`. */
  function WithId(d: Dom, n: NodeId, id: string): Dom
    requires n < |d.nodes|
  {
    d.(nodes := d.nodes[n := d.nodes[n].(id := id)])
  }

  /** `Object.assign(node.style, props)`. */
  function WithStyle(d: Dom, n: NodeId, props: Style): Dom
    requires n < |d.nodes|
  {
    d.(nodes := d.nodes[n := d.nodes[n].(style := Assign(d.nodes[n].style, props))])
  }

  /** `parent.appendChild(n)`: `n` becomes a child of `parent`, leaving any former parent. */
  function Appended(d: Dom, parent: ElementId, n: NodeId): Dom {
    d.(parentOf := d.parentOf[n := parent])
  }

  /** `parent.removeChild(n)` once it is known that `n` is a child of `parent`. */
  function Detached(d: Dom, n: NodeId): Dom {
    d.(parentOf := d.parentOf - {n})
  }

  /** The nodes currently attached to host element `e`. */
  function ChildrenOf(d: Dom, e: ElementId): set<NodeId> {
    set n | n in d.parentOf && d.parentOf[n] == e
  }

  /** Appending a detached node to `e` adds exactly that node to its children. */
  lemma ChildrenOfAppended(d: Dom, e: ElementId, n: NodeId)
    requires n !in d.parentOf
    ensures ChildrenOf(Appended(d, e, n), e) == ChildrenOf(d, e) + {n}
  {
  }

  /** The document that the service's DOM calls act on. */
  class Document {
    var nodes: seq<NodeInfo>
    var parentOf: map<NodeId, ElementId>

    function Value(): Dom
      reads this
    {
      Dom(nodes, parentOf)
    }

    constructor ()
      ensures Value() == Dom([], map[])
    {
      nodes := [];
      parentOf := map[];
    }

    method CreateElement(tag: string) returns (n: NodeId)
      modifies this
      ensures n == NextNode(old(Value())) && n < |nodes|
      ensures Value() == Created(old(Value()), tag)
    {
      n := |nodes|;
      nodes := nodes + [NodeInfo(tag, "", map[])];
    }

    method SetId(n: NodeId, id: string)
      requires n < |nodes|
      modifies this
      ensures Value() == WithId(old(Value()), n, id)
    {
      nodes := nodes[n := nodes[n].(id := id)];
    }

    method AssignStyle(n: NodeId, props: Style)
      requires n < |nodes|
      modifies this
      ensures Value() == WithStyle(old(Value()), n, props)
    {
      nodes := nodes[n := nodes[n].(style := Assign(nodes[n].style, props))];
    }

    method AppendChild(parent: ElementId, n: NodeId)
      requires n < |nodes|
      modifies this
      ensures Value() == Appended(old(Value()), parent, n)
    {
      parentOf := parentOf[n := parent];
    }

    /** `n.parentNode`, `None` standing for `null`. */
    method ParentNode(n: NodeId) returns (p: Option<ElementId>)
      ensures p.Some? <==> n in parentOf
      ensures p.Some? ==> p.value == parentOf[n]
    {
      p := if n in parentOf then Some(parentOf[n]) else None;
    }

    /** `parent.removeChild(n)`: throws `NotFoundError` unless `n` is a child of `parent`. */
    method RemoveChild(parent: ElementId, n: NodeId) returns (result: Outcome)
      modifies this
      ensures result == (if n in old(parentOf) && old(parentOf)[n] == parent then Completed else Threw(NotFoundError))
      ensures Value() == if result.Completed? then Detached(old(Value()), n) else old(Value())
    {
      if n in parentOf && parentOf[n] == parent {
        parentOf := parentOf - {n};
        result := Completed;
      } else {
        result := Threw(NotFoundError);
      }
    }
  }
}
