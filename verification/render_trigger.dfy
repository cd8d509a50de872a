/** The decision rule of the mutation callback: does a batch of mutation
    records warrant re-rendering the whole chat container? */
module RenderTrigger {
  import opened Dom

  /** Only element and text nodes are inspected. */
  predicate Inspected(n: Node)
  {
    n.kind == Element || n.kind == Text
  }

  /** An added node that may hold LaTeX: an inspected node whose text contains
      a dollar sign or a backslash. */
  predicate MayHoldMath(n: Node)
  {
    Inspected(n) && ('$' in TextOf(n) || '\\' in TextOf(n))
  }

  /** A record triggers when it is a child-list record that added a node that may hold math. */
  predicate RecordTriggers(r: MutationRecord)
  {
    r.ChildList? && exists n :: n in r.addedNodes && MayHoldMath(n)
  }

  /** A batch is render-worthy when one of its records triggers. */
  predicate NeedsRender(batch: seq<MutationRecord>)
  {
    exists r :: r in batch && RecordTriggers(r)
  }

  /** The callback as the content script runs it: one pass over the records,
      one pass over each child-list record's added nodes, a flag that is only
      ever set, and one render of the whole container at the end if the flag
      is set. `renders` counts the render invocations made so far. */
  method MutationCallback(mutationsList: seq<MutationRecord>, renderCount: nat)
    returns (needsRender: bool, renders: nat)
    ensures needsRender <==> NeedsRender(mutationsList)
    ensures needsRender ==> renders == renderCount + 1
    ensures !needsRender ==> renders == renderCount
  {
    needsRender := false;
    var i := 0;
    while i < |mutationsList|
      invariant 0 <= i <= |mutationsList|
      invariant needsRender <==> NeedsRender(mutationsList[..i])
    {
      var mutation := mutationsList[i];
      assert mutationsList[..i + 1] == mutationsList[..i] + [mutation];
      NeedsRenderConcat(mutationsList[..i], [mutation]);
      if mutation.ChildList? && |mutation.addedNodes| > 0 {
        var added := mutation.addedNodes;
        var j := 0;
        while j < |added|
          invariant 0 <= j <= |added|
          invariant needsRender <==>
                      NeedsRender(mutationsList[..i]) || exists n :: n in added[..j] && MayHoldMath(n)
        {
          var node := added[j];
          assert added[..j + 1] == added[..j] + [node];
          if node.kind == Element || node.kind == Text {
            if node.textContent.Some? && node.textContent.value != ""
               && ('$' in node.textContent.value || '\\' in node.textContent.value)
            {
              needsRender := true;
              assert node in added[..j + 1] && MayHoldMath(node);
            }
          }
          j := j + 1;
        }
        assert added[..j] == added;
        // the record just scanned is the only one in [mutation], so the
        // inner invariant's nodes are exactly what NeedsRender([mutation]) asks for
        assert mutation in [mutation];
      }
      i := i + 1;
    }
    assert mutationsList[..i] == mutationsList;
    renders := renderCount;
    if needsRender {
      renders := renders + 1;
    }
  }

  /** The decision distributes over concatenation of batches. */
  lemma NeedsRenderConcat(a: seq<MutationRecord>, b: seq<MutationRecord>)
    ensures NeedsRender(a + b) <==> NeedsRender(a) || NeedsRender(b)
  {
  }

  /** The flag is never reset: records appended to a render-worthy batch keep it
      render-worthy, and every render-worthy prefix makes the whole batch render-worthy. */
  lemma TriggerMonotone(batch: seq<MutationRecord>, more: seq<MutationRecord>, k: nat)
    requires k <= |batch|
    ensures NeedsRender(batch) ==> NeedsRender(batch + more)
    ensures NeedsRender(batch[..k]) ==> NeedsRender(batch)
  {
  }

  /** The order in which records arrive does not matter. */
  lemma TriggerOrderIndependent(a: seq<MutationRecord>, b: seq<MutationRecord>)
    requires multiset(a) == multiset(b)
    ensures NeedsRender(a) <==> NeedsRender(b)
  {
    forall r | r in a
      ensures r in b
    {
      assert r in multiset(a);
    }
    forall r | r in b
      ensures r in a
    {
      assert r in multiset(b);
    }
  }

  /** Character-data records, attribute records and child-list records that
      added nothing never trigger, and adding them to a batch changes nothing. */
  lemma QuietRecordsIgnored(batch: seq<MutationRecord>, r: MutationRecord)
    requires r.CharacterData? || r.Attributes? || (r.ChildList? && r.addedNodes == [])
    ensures !NeedsRender([r])
    ensures NeedsRender(batch + [r]) <==> NeedsRender(batch)
  {
  }

  /** Nodes that are neither elements nor text nodes, and nodes whose
      `textContent` is `null` or empty, never trigger, whatever their text. */
  lemma InertNodesNeverTrigger(n: Node)
    requires !Inspected(n) || n.textContent == None || n.textContent == Some("")
    ensures !MayHoldMath(n)
    ensures !NeedsRender([ChildList([n], [])])
  {
  }

  /** A batch none of whose added nodes contains a dollar sign or a backslash is not render-worthy. */
  lemma MarkerFreeBatchNeverRenders(batch: seq<MutationRecord>)
    requires forall r, n :: r in batch && r.ChildList? && n in r.addedNodes ==>
               '$' !in TextOf(n) && '\\' !in TextOf(n)
    ensures !NeedsRender(batch)
  {
  }

  /** One inserted element or text node with a dollar sign or a backslash in its
      text makes the batch render-worthy, whatever else the batch holds and
      whatever the same record removed. */
  lemma MarkerNodeTriggers(before: seq<MutationRecord>, after: seq<MutationRecord>,
                           added: seq<Node>, removed: seq<Node>, n: Node)
    requires Inspected(n) && ('$' in TextOf(n) || '\\' in TextOf(n))
    requires n in added
    ensures NeedsRender(before + [ChildList(added, removed)] + after)
  {
    assert ChildList(added, removed) in before + [ChildList(added, removed)] + after;
  }

  /** The two batches used as examples: `no math here` does not trigger;
      `$a$` next to `plain` triggers (and so renders once). */
  lemma ExampleBatches()
    ensures !NeedsRender([ChildList([Node(Text, Some("no math here"))], [])])
    ensures NeedsRender([ChildList([Node(Element, Some("$a$")), Node(Element, Some("plain"))], [])])
  {
    MarkerFreeTextNeverTriggers(Text, "no math here");
    MarkerNodeTriggers([], [], [Node(Element, Some("$a$")), Node(Element, Some("plain"))], [],
                       Node(Element, Some("$a$")));
    assert [ChildList([Node(Element, Some("$a$")), Node(Element, Some("plain"))], [])]
        == [] + [ChildList([Node(Element, Some("$a$")), Node(Element, Some("plain"))], [])] + [];
  }

  /** Inserting a node whose text holds neither a dollar sign nor a backslash
      never triggers, whatever the node's type. */
  lemma MarkerFreeTextNeverTriggers(kind: NodeKind, s: string)
    requires '$' !in s && '\\' !in s
    ensures !NeedsRender([ChildList([Node(kind, Some(s))], [])])
  {
  }
}
