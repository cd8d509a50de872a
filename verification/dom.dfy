/** The slice of the page's node tree that the content script looks at.
    Nodes are abstract: a node type and the value its `textContent` would
    report. How the browser computes `textContent` from descendants is the
    browser's business and is not modelled. */
module Dom {

  /** A JavaScript value that may be `null`. */
  datatype Option<T> = None | Some(value: T)

  /** The node types of the DOM standard (`Node.ELEMENT_NODE` = 1 … `Node.DOCUMENT_FRAGMENT_NODE` = 11). */
  datatype NodeKind =
    | Element                // 1
    | Attr                   // 2
    | Text                   // 3
    | CDataSection           // 4
    | ProcessingInstruction  // 7
    | Comment                // 8
    | Document               // 9
    | DocumentType           // 10
    | DocumentFragment       // 11

  /** A node as the mutation callback sees it: its type and its `textContent`,
      which is `null` for some node types. */
  datatype Node = Node(kind: NodeKind, textContent: Option<string>)

  /** One record of a `MutationObserver` batch, by its `type` field. */
  datatype MutationRecord =
    | ChildList(addedNodes: seq<Node>, removedNodes: seq<Node>)
    | CharacterData(target: Node)
    | Attributes(target: Node, attributeName: string)

  /** An opaque handle to a live element of the page (what `querySelector` returns). */
  datatype NodeRef = NodeRef(id: nat)

  /** The text of a node, with `null` read as the empty string. */
  function TextOf(n: Node): string
  {
    match n.textContent
    case None => ""
    case Some(s) => s
  }
}
