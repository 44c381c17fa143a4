/**
 * The part of the DOM the widget touches, as a value: elements with a tag,
 * a class list and attributes, and the ordered child list of each element.
 * Nodes are named by ids handed out in creation order.
 */
module Browser {
  import opened Common

  type NodeId = nat

  /** An element: its tag name, its `classList` and its attributes. */
  datatype Element = Element(tag: string, classes: set<string>, attrs: map<string, string>)

  /** The errors the DOM and the script engine raise on the widget's paths. */
  datatype Fault =
    | ThrownError(message: string)  // `throw new Error(...)`
    | TypeError                     // a property read on `null`/`undefined`, or a write to a primitive
    | ReferenceError                // a global name that was never assigned
    | SyntaxError                   // `JSON.parse` of text that is not JSON
    | NetworkError                  // a synchronous request that could not complete
    | NotFoundError                 // `removeChild` of a node that is not a child

  /** The elements, each element's children in order, and the next fresh id. */
  datatype Tree = Tree(elements: map<NodeId, Element>, children: map<NodeId, seq<NodeId>>, next: NodeId)
  {
    /** Every id in use is below `next`, every element has a child list, and children are elements. */
    predicate Valid()
    {
      && elements.Keys == children.Keys
      && (forall n :: n in elements ==> n < next)
      && (forall n, c :: n in children && c in children[n] ==> c in elements)
    }
  }

  /** A document holding only `root`. */
  function Singleton(root: NodeId, tag: string): (t: Tree)
    ensures t.Valid() && t.elements.Keys == {root}
  {
    Tree(map[root := Element(tag, {}, map[])], map[root := []], root + 1)
  }

  /**
   * A new element `e` appended as the last child of `parent`: it gets the
   * next fresh id and nothing else changes. Building an element and setting
   * its attributes before anything can observe it is one such step.
   */
  function AppendElement(t: Tree, e: Element, parent: NodeId): (r: (Tree, NodeId))
    requires t.Valid() && parent in t.elements
    ensures r.0.Valid() && r.1 !in t.elements
    ensures r.0.elements == t.elements[r.1 := e]
    ensures r.0.children == t.children[r.1 := []][parent := t.children[parent] + [r.1]]
  {
    (Tree(t.elements[t.next := e], t.children[t.next := []][parent := t.children[parent] + [t.next]], t.next + 1), t.next)
  }

  /**
   * `document.createElement(tag)`, `el.classList.add(className)` when a
   * non-empty class is given (the empty string is falsy and skipped), and
   * `parent.appendChild(el)`.
   */
  function CreateElement(t: Tree, tag: string, className: Option<string>, parent: NodeId): (r: (Tree, NodeId))
    requires t.Valid() && parent in t.elements
    ensures r.0.Valid() && r.1 !in t.elements && r.1 in r.0.elements
    ensures r.0.elements[r.1] == Element(tag, if className.Some? && className.value != "" then {className.value} else {}, map[])
    ensures parent in r.0.children && r.1 in r.0.children
    ensures r.0.children[parent] == t.children[parent] + [r.1] && r.0.children[r.1] == []
    ensures AddedUnder(t, r.0, parent)
  {
    AppendAddsUnder(t, Element(tag, if className.Some? && className.value != "" then {className.value} else {}, map[]), parent);
    AppendElement(t, Element(tag, if className.Some? && className.value != "" then {className.value} else {}, map[]), parent)
  }

  /**
   * `after` is `before` with nodes added below `parent` only: every element
   * is kept as it was, and only `parent`'s child list may change.
   */
  predicate AddedUnder(before: Tree, after: Tree, parent: NodeId)
  {
    && (forall n :: n in before.elements ==> n in after.elements && after.elements[n] == before.elements[n])
    && (forall n :: n in before.children && n != parent ==> n in after.children && after.children[n] == before.children[n])
  }

  lemma AppendAddsUnder(t: Tree, e: Element, parent: NodeId)
    requires t.Valid() && parent in t.elements
    ensures AddedUnder(t, AppendElement(t, e, parent).0, parent)
  {
  }

  /** Adding below `p` and then below a node that is new or is `p` itself adds below `p`. */
  lemma AddedUnderTrans(t0: Tree, t1: Tree, t2: Tree, p: NodeId, q: NodeId)
    requires t0.Valid() && AddedUnder(t0, t1, p) && AddedUnder(t1, t2, q) && (q == p || q !in t0.elements)
    ensures AddedUnder(t0, t2, p)
  {
  }

  /** A click event: the element whose listener handles it, and whether its default action was prevented. */
  class ClickEvent {
    const currentTarget: NodeId
    var defaultPrevented: bool

    /** A click on `target` that nobody has handled yet. */
    constructor(target: NodeId)
      ensures currentTarget == target && !defaultPrevented
    {
      currentTarget := target;
      defaultPrevented := false;
    }

    /** `e.preventDefault()`: the browser will not follow the link. */
    method PreventDefault()
      modifies this`defaultPrevented
      ensures defaultPrevented
    {
      defaultPrevented := true;
    }
  }

  /** `el.getAttribute(name)`: the value, or `null` (here None) when the attribute is absent. */
  function GetAttribute(t: Tree, el: NodeId, name: string): Option<string>
    requires el in t.elements
  {
    if name in t.elements[el].attrs then Some(t.elements[el].attrs[name]) else None
  }

  /** `el.classList.add(c)` (`add` = true) or `el.classList.remove(c)`. */
  function SetClass(t: Tree, el: NodeId, c: string, add: bool): (r: Tree)
    requires t.Valid() && el in t.elements
    ensures r.Valid() && r.children == t.children && r.elements.Keys == t.elements.Keys
    ensures r.elements[el].classes == if add then t.elements[el].classes + {c} else t.elements[el].classes - {c}
    ensures r.elements[el].tag == t.elements[el].tag && r.elements[el].attrs == t.elements[el].attrs
    ensures forall n :: n in t.elements && n != el ==> r.elements[n] == t.elements[n]
  {
    var e := t.elements[el];
    t.(elements := t.elements[el := e.(classes := if add then e.classes + {c} else e.classes - {c})])
  }

  /** The child list with the first occurrence of `child` taken out. */
  function Without(s: seq<NodeId>, child: NodeId): (r: seq<NodeId>)
    ensures child in s ==> |r| == |s| - 1
    ensures child !in s ==> r == s
    ensures forall n :: n in r ==> n in s
    ensures forall n :: n in s && n != child ==> n in r
  {
    if s == [] then []
    else if s[0] == child then s[1..]
    else [s[0]] + Without(s[1..], child)
  }

  /**
   * `parent.removeChild(child)`: detaches `child` (which stays an element,
   * as the returned node does in the source), or throws NotFoundError when
   * it is not a child of `parent`.
   */
  function RemoveChild(t: Tree, parent: NodeId, child: NodeId): (r: Result<Tree, Fault>)
    requires t.Valid() && parent in t.elements
    ensures child !in t.children[parent] <==> r == Err(NotFoundError)
    ensures r.Ok? ==> (r.value.Valid() && r.value.elements == t.elements
                       && r.value.children == t.children[parent := Without(t.children[parent], child)])
  {
    if child in t.children[parent] then Ok(t.(children := t.children[parent := Without(t.children[parent], child)]))
    else Err(NotFoundError)
  }
}
