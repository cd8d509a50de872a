/** Start-up of the content script: the `load` listener, `startObserver`
    with its retry timer, and the mutation observer once it is registered.
    Browser plumbing becomes events in and effects out: the page's answers
    (the `typeof` of the library, the result of `querySelector`, a delivered
    mutation batch) arrive with the events, and timers, renders and the
    observer registration leave as effects. */
module Bootstrap {
  import opened Dom
  import opened RenderGuard
  import opened RenderTrigger

  /** Delay before `startObserver` runs again when the container is missing. */
  const TargetRetryDelayMs: nat := 2000

  /** Delay before `startObserver` runs when the library is missing at `load`. */
  const CapabilityRetryDelayMs: nat := 1000

  /** The options passed to `MutationObserver.observe`. */
  datatype ObserverOptions = ObserverOptions(childList: bool, subtree: bool, characterData: bool)

  const ObserveConfig: ObserverOptions := ObserverOptions(true, true, true)

  datatype State =
    | Uninitialized        // before the window's `load` event
    | Waiting              // a `startObserver` timer is pending
    | Active(target: NodeRef)  // the observer watches `target`; never left

  datatype Event =
    | Load(binding: Binding, lookup: Option<NodeRef>)  // `load`, with `typeof` and the container lookup
    | TimerFired(lookup: Option<NodeRef>)              // the pending timer runs `startObserver`
    | Mutations(batch: seq<MutationRecord>)            // the observer delivers a batch

  /** Where a render is aimed: the node `startObserver` found, or the container
      looked up afresh by the mutation callback. */
  datatype RenderRoot = ObservedTarget(node: NodeRef) | ChatContainer

  datatype Effect =
    | Render(root: RenderRoot)                    // one call of the render invoker
    | ScheduleStartObserver(delayMs: nat)         // `setTimeout(startObserver, delayMs)`
    | Observe(target: NodeRef, options: ObserverOptions)  // observer registration

  datatype Transition = Transition(next: State, effects: seq<Effect>)

  /** `startObserver`: render what is there and register the observer, or try again later. */
  function StartObserver(lookup: Option<NodeRef>): Transition
  {
    match lookup
    case Some(t) => Transition(Active(t), [Render(ObservedTarget(t)), Observe(t, ObserveConfig)])
    case None => Transition(Waiting, [ScheduleStartObserver(TargetRetryDelayMs)])
  }

  /** The `load` listener: start now if the library name is defined at all,
      otherwise schedule one later start that does not look again. */
  function OnLoad(binding: Binding, lookup: Option<NodeRef>): Transition
  {
    if binding != Undefined then StartObserver(lookup)
    else Transition(Waiting, [ScheduleStartObserver(CapabilityRetryDelayMs)])
  }

  /** One event. An event the page cannot deliver in a state (a second `load`,
      a timer with none pending, a batch before the observer exists) changes nothing. */
  function Step(s: State, e: Event): (t: Transition)
    ensures s.Active? ==> t.next == s
    ensures s.Active? ==> forall k :: 0 <= k < |t.effects| ==> t.effects[k] == Render(ChatContainer)
    ensures s.Active? && e.Mutations? ==> (t.effects != [] <==> NeedsRender(e.batch)) && |t.effects| <= 1
    ensures !s.Active? && t.next.Active? ==>
              t.effects == [Render(ObservedTarget(t.next.target)), Observe(t.next.target, ObserveConfig)]
    ensures !t.next.Active? ==> forall k :: 0 <= k < |t.effects| ==> !t.effects[k].Render?
  {
    if s.Uninitialized? && e.Load? then OnLoad(e.binding, e.lookup)
    else if s.Waiting? && e.TimerFired? then StartObserver(e.lookup)
    else if s.Active? && e.Mutations? then
      Transition(s, if NeedsRender(e.batch) then [Render(ChatContainer)] else [])
    else Transition(s, [])
  }

  /** A run of events from `s`: the final state and every effect in order. */
  function Run(s: State, events: seq<Event>): Transition
    decreases |events|
  {
    if events == [] then Transition(s, [])
    else
      var t := Run(s, events[..|events| - 1]);
      var u := Step(t.next, events[|events| - 1]);
      Transition(u.next, t.effects + u.effects)
  }

  /** The timers scheduled while waiting: every one after 2000 ms, except that
      the first may be the single 1000 ms start scheduled at `load`. */
  predicate Retries(p: seq<Effect>)
  {
    forall k :: 0 <= k < |p| ==>
      p[k] == ScheduleStartObserver(TargetRetryDelayMs)
      || (k == 0 && p[k] == ScheduleStartObserver(CapabilityRetryDelayMs))
  }

  /** What the effects of a run from `Uninitialized` look like in each state:
      nothing before `load`; only retries while waiting; once active, retries,
      then exactly one render of the found target immediately followed by the
      observer registration, then only whole-container renders. */
  predicate Consistent(s: State, effects: seq<Effect>)
  {
    if s.Uninitialized? then effects == []
    else if s.Waiting? then effects != [] && Retries(effects)
    else ActivatedAt(s.target, effects)
  }

  /** The activation pattern for target `x`, with the render of `x` at some index `i`. */
  predicate ActivatedAt(x: NodeRef, effects: seq<Effect>)
  {
    exists i :: 0 <= i < |effects| - 1 && ActivatedAtIndex(x, effects, i)
  }

  predicate ActivatedAtIndex(x: NodeRef, effects: seq<Effect>, i: nat)
    requires i < |effects| - 1
  {
    && Retries(effects[..i])
    && effects[i] == Render(ObservedTarget(x))
    && effects[i + 1] == Observe(x, ObserveConfig)
    && forall k :: i + 1 < k < |effects| ==> effects[k] == Render(ChatContainer)
  }

  lemma {:induction false} RunIsConsistent(events: seq<Event>)
    ensures Consistent(Run(Uninitialized, events).next, Run(Uninitialized, events).effects)
  {
    if events != [] {
      var prefix := events[..|events| - 1];
      var e := events[|events| - 1];
      RunIsConsistent(prefix);
      var t := Run(Uninitialized, prefix);
      var u := Step(t.next, e);
      var all := t.effects + u.effects;
      match t.next
      case Uninitialized =>
        if u.next.Active? {
          assert all[..0] == [];
          assert ActivatedAtIndex(u.next.target, all, 0);
        }
      case Waiting =>
        if u.next.Active? {
          var i := |t.effects|;
          assert all[..i] == t.effects;
          assert ActivatedAtIndex(u.next.target, all, i);
        } else if u.next.Waiting? {
          assert Retries(all);
        }
      case Active(x) =>
        var i :| 0 <= i < |t.effects| - 1 && ActivatedAtIndex(x, t.effects, i);
        assert all[..i] == t.effects[..i];
        assert ActivatedAtIndex(x, all, i);
    }
  }

  /** The number of whole-container renders among some effects. */
  function ContainerRenders(effects: seq<Effect>): nat
  {
    if effects == [] then 0
    else ContainerRenders(effects[..|effects| - 1])
         + (if effects[|effects| - 1] == Render(ChatContainer) then 1 else 0)
  }

  /** The number of delivered batches that are render-worthy. */
  function WorthyBatches(events: seq<Event>): nat
  {
    if events == [] then 0
    else WorthyBatches(events[..|events| - 1])
         + (if events[|events| - 1].Mutations? && NeedsRender(events[|events| - 1].batch) then 1 else 0)
  }

  lemma ContainerRendersConcat(a: seq<Effect>, b: seq<Effect>)
    ensures ContainerRenders(a + b) == ContainerRenders(a) + ContainerRenders(b)
    decreases |b|
  {
    if b != [] {
      assert (a + b)[..|a + b| - 1] == a + b[..|b| - 1];
      ContainerRendersConcat(a, b[..|b| - 1]);
    } else {
      assert a + b == a;
    }
  }

  /** One step renders the whole container at most once, and only for a render-worthy batch. */
  lemma StepContainerRenders(s: State, e: Event)
    ensures ContainerRenders(Step(s, e).effects)
         == if s.Active? && e.Mutations? && NeedsRender(e.batch) then 1 else 0
  {
    var effects := Step(s, e).effects;
    if |effects| == 2 {
      assert effects[0].Render? && effects[0].root.ObservedTarget? && effects[1].Observe?;
      assert effects[..1][..0] == [];
      assert effects[..1] == [effects[0]];
      assert ContainerRenders(effects[..1]) == 0;
      assert ContainerRenders(effects) == 0;
    } else if |effects| == 1 {
      assert effects[..0] == [];
    }
  }

  /** However many records or qualifying nodes a batch holds, it causes at most
      one render; once active, it causes exactly one precisely when it is render-worthy. */
  lemma {:induction false} AtMostOneRenderPerBatch(s: State, events: seq<Event>)
    ensures ContainerRenders(Run(s, events).effects) <= WorthyBatches(events)
    ensures s.Active? ==> ContainerRenders(Run(s, events).effects) == WorthyBatches(events)
    ensures s.Active? ==> Run(s, events).next == s
  {
    if events != [] {
      var prefix := events[..|events| - 1];
      var e := events[|events| - 1];
      AtMostOneRenderPerBatch(s, prefix);
      var t := Run(s, prefix);
      var u := Step(t.next, e);
      ContainerRendersConcat(t.effects, u.effects);
      StepContainerRenders(t.next, e);
    }
  }

  /** `n` copies of one value. */
  function Repeat<T>(x: T, n: nat): (r: seq<T>)
    ensures |r| == n && forall k :: 0 <= k < n ==> r[k] == x
  {
    seq(n, k => x)
  }

  /** A missing container is looked up again every 2000 ms, with no bound on
      the number of attempts, and nothing is rendered meanwhile. */
  lemma {:induction false} RetryUnbounded(n: nat)
    ensures Run(Waiting, Repeat(TimerFired(None), n))
         == Transition(Waiting, Repeat(ScheduleStartObserver(TargetRetryDelayMs), n))
  {
    if n > 0 {
      assert Repeat(TimerFired(None), n)[..n - 1] == Repeat(TimerFired(None), n - 1);
      RetryUnbounded(n - 1);
      assert Repeat(ScheduleStartObserver(TargetRetryDelayMs), n - 1)
             + [ScheduleStartObserver(TargetRetryDelayMs)]
          == Repeat(ScheduleStartObserver(TargetRetryDelayMs), n);
    }
  }

  /** After any number of failed lookups, the first successful one renders the
      target once and then registers the observer. */
  lemma FoundAfterRetries(n: nat, x: NodeRef)
    ensures Run(Waiting, Repeat(TimerFired(None), n) + [TimerFired(Some(x))])
         == Transition(Active(x), Repeat(ScheduleStartObserver(TargetRetryDelayMs), n)
                                  + [Render(ObservedTarget(x)), Observe(x, ObserveConfig)])
  {
    var events := Repeat(TimerFired(None), n) + [TimerFired(Some(x))];
    assert events[..|events| - 1] == Repeat(TimerFired(None), n);
    RetryUnbounded(n);
  }

  /** The `load` listener tests only whether the library name is defined.
      A non-function value under that name starts exactly as a function does,
      although every render it leads to then calls nothing. An undefined name
      schedules one start after 1000 ms whatever the container lookup would
      have answered, since no lookup is made. A defined name looks the
      container up at once: found, it is rendered and observed; missing, a
      retry is scheduled after 2000 ms. */
  lemma LoadDecision(lookup: Option<NodeRef>, other: Option<NodeRef>, n: NodeRef, c: Completion)
    ensures Step(Uninitialized, Load(NonFunction, lookup)) == Step(Uninitialized, Load(Callable, lookup))
    ensures RenderLatexInNode(NonFunction, n, c).calls == []
    ensures Step(Uninitialized, Load(Undefined, lookup)) == Step(Uninitialized, Load(Undefined, other))
    ensures Step(Uninitialized, Load(Undefined, lookup)).next == Waiting
    ensures Step(Uninitialized, Load(Undefined, lookup)).effects == [ScheduleStartObserver(1000)]
    ensures lookup.Some? ==> (
              var x := lookup.value;
              Step(Uninitialized, Load(Callable, lookup))
                == Transition(Active(x), [Render(ObservedTarget(x)), Observe(x, ObserveConfig)]))
    ensures lookup.None? ==> (
              Step(Uninitialized, Load(Callable, lookup)) == Transition(Waiting, [ScheduleStartObserver(2000)]))
  {
  }

  /** The delayed start after a missing library does not look at the library
      again: whatever the page holds by then, a found container is rendered and observed. */
  lemma CapabilityNotRechecked(lookup: Option<NodeRef>, x: NodeRef)
    ensures Run(Uninitialized, [Load(Undefined, lookup), TimerFired(Some(x))])
         == Transition(Active(x), [ScheduleStartObserver(CapabilityRetryDelayMs),
                                   Render(ObservedTarget(x)), Observe(x, ObserveConfig)])
  {
    var events := [Load(Undefined, lookup), TimerFired(Some(x))];
    assert events[..1] == [Load(Undefined, lookup)];
    assert events[..1][..0] == [];
    assert Run(Uninitialized, events[..1])
        == Transition(Waiting, [ScheduleStartObserver(CapabilityRetryDelayMs)]);
  }
}
