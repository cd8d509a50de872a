/** The render invoker: calls the KaTeX auto-render entry point
    `renderMathInElement` on a node with a fixed configuration, if the page
    has it, and swallows whatever the library throws. The library itself is
    opaque: a call is recorded together with the completion the library
    reported for it. */
module RenderGuard {
  import opened Dom

  /** What `typeof renderMathInElement` reports on the page. */
  datatype Binding =
    | Undefined      // 'undefined': the library has not loaded
    | NonFunction    // some other value under that name
    | Callable       // 'function'

  /** How a JavaScript call ended: normally, or by throwing a value. */
  datatype Completion = Normal | Threw(error: string)

  /** One delimiter pair of the auto-render configuration. */
  datatype Delimiter = Delimiter(left: string, right: string, display: bool)

  /** The options object handed to `renderMathInElement`. */
  datatype AutoRenderOptions =
    AutoRenderOptions(delimiters: seq<Delimiter>, ignoredTags: seq<string>, throwOnError: bool)

  /** The fixed configuration of every render: display `$$`, inline `$`,
      inline `\(`…`\)`, display `\[`…`\]`; six tags never scanned; per-span
      errors rendered in place rather than thrown. */
  const RenderOptions: AutoRenderOptions :=
    AutoRenderOptions(
      [ Delimiter("$$", "$$", true),
        Delimiter("$", "$", false),
        Delimiter("\\(", "\\)", false),
        Delimiter("\\[", "\\]", true) ],
      ["script", "noscript", "style", "textarea", "pre", "code"],
      false)

  /** A call made into the library. */
  datatype LibraryCall = LibraryCall(root: NodeRef, options: AutoRenderOptions)

  /** What one call of the invoker did: the library calls it made, and how it completed. */
  datatype Invocation = Invocation(calls: seq<LibraryCall>, completion: Completion)

  /** The `try`/`catch` around the library call: a thrown error is logged and dropped. */
  function Guarded(library: Completion): Completion
  {
    match library
    case Normal => Normal
    case Threw(_) => Normal
  }

  /** Render the LaTeX in `targetNode`. `library` is the completion the
      library would report if it were called. */
  function RenderLatexInNode(binding: Binding, targetNode: NodeRef, library: Completion): (r: Invocation)
    ensures r.completion == Normal
    ensures binding != Callable ==> r.calls == []
    ensures binding == Callable ==> r.calls == [LibraryCall(targetNode, RenderOptions)]
  {
    if binding == Callable then
      Invocation([LibraryCall(targetNode, RenderOptions)], Guarded(library))
    else
      Invocation([], Normal)
  }

  /** The library reads the delimiter list in order: at a given position of the
      text, the first listed pair whose opening marker starts there is used.
      The result is that pair's index. */
  function FirstOpening(ds: seq<Delimiter>, text: string): (r: Option<nat>)
    ensures r.Some? ==> r.value < |ds| && ds[r.value].left <= text
    ensures r.Some? ==> forall i :: 0 <= i < r.value ==> !(ds[i].left <= text)
    ensures r.None? ==> forall i :: 0 <= i < |ds| ==> !(ds[i].left <= text)
    decreases |ds|
  {
    if ds == [] then None
    else if ds[0].left <= text then Some(0)
    else
      match FirstOpening(ds[1..], text)
      case None => None
      case Some(k) => Some(k + 1)
  }

  /** No opening marker is a prefix of a later pair's opening marker. */
  predicate NoShadowing(ds: seq<Delimiter>)
  {
    forall i, j :: 0 <= i < j < |ds| ==> !(ds[i].left <= ds[j].left)
  }

  /** Every pair of the list can be recognised: text that opens with its marker selects it. */
  predicate AllRecognisable(ds: seq<Delimiter>)
  {
    forall j :: 0 <= j < |ds| ==> FirstOpening(ds, ds[j].left) == Some(j)
  }

  /** A delimiter list has every pair recognisable exactly when no opening
      marker shadows a later one; this is why `$$` has to precede `$`. */
  lemma RecognisableIffNoShadowing(ds: seq<Delimiter>)
    ensures AllRecognisable(ds) <==> NoShadowing(ds)
  {
  }

  /** No opening marker of the fixed configuration shadows a later one. */
  lemma RenderOptionsNoShadowing()
    ensures NoShadowing(RenderOptions.delimiters)
  {
    var ds := RenderOptions.delimiters;
    assert ds[0].left == "$$" && ds[1].left == "$" && ds[2].left == "\\(" && ds[3].left == "\\[";
    // the first character tells the dollar pairs from the backslash pairs
    assert "$$"[0] != "\\("[0] && "$$"[0] != "\\["[0];
    assert !("$$" <= "$") && !("$$" <= "\\(") && !("$$" <= "\\[");
    assert !("$" <= "\\(") && !("$" <= "\\[");
    // the second character tells the two backslash pairs apart
    assert "\\("[1] != "\\["[1];
    assert !("\\(" <= "\\[");
  }

  /** The delimiters the invoker passes: `$$` (display) before `$` (inline),
      the display pairs being exactly `$$` and `\[`, and every pair recognisable. */
  lemma RenderOptionsDelimiters()
    ensures RenderOptions.delimiters[0] == Delimiter("$$", "$$", true)
    ensures RenderOptions.delimiters[1] == Delimiter("$", "$", false)
    ensures forall d :: d in RenderOptions.delimiters ==> (d.display <==> d.left == "$$" || d.left == "\\[")
    ensures AllRecognisable(RenderOptions.delimiters)
  {
    RenderOptionsNoShadowing();
    RecognisableIffNoShadowing(RenderOptions.delimiters);
  }

  /** The rest of the options: exactly the six ignored tags, and no throwing. */
  lemma RenderOptionsIgnoredTags()
    ensures forall t :: t in RenderOptions.ignoredTags <==>
              t in {"script", "noscript", "style", "textarea", "pre", "code"}
    ensures |RenderOptions.ignoredTags| == 6
    ensures !RenderOptions.throwOnError
  {
  }

  /** Listing `$` before `$$` would make display math unrecognisable. */
  lemma InlineFirstShadowsDisplay()
    ensures !AllRecognisable([Delimiter("$", "$", false), Delimiter("$$", "$$", true)])
  {
    var ds := [Delimiter("$", "$", false), Delimiter("$$", "$$", true)];
    RecognisableIffNoShadowing(ds);
    assert ds[0].left <= ds[1].left;
  }
}
