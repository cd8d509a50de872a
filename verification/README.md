# NotebookLM LaTeX Renderer — content-script model

The extension is a single content script. It waits for the page's `load` event and finds the chat
container, which is currently `body`. It renders the LaTeX already present with KaTeX's
auto-render entry point `renderMathInElement`, then registers a `MutationObserver`. After that, it
re-renders the whole container whenever a delivered mutation batch inserts a node whose text looks
like it might hold LaTeX, meaning it contains a `$` or a `\`. Almost all of the script is browser
plumbing. This model covers the three parts of it that are logic:

- **RenderTrigger** (`render_trigger.dfy`) is the decision rule of `mutationCallback`.
  `NeedsRender` is the rule stated declaratively: some child-list record added an element or text
  node whose text contains `$` or `\`. `MutationCallback` is the callback's nested loop with its
  never-reset flag, proved equal to that rule. Each call adds at most one render to the count.
- **RenderGuard** (`render_guard.dfy`) is `renderLatexInNode`. It calls the library only when
  `typeof renderMathInElement` is `'function'`, and always with one fixed options object:
  - four delimiter pairs, with `$$` before `$`;
  - six ignored tags;
  - `throwOnError: false`.

  The `try`/`catch` means no error leaves the call. The library is opaque. A call is recorded
  together with the completion the library reports, which is normal or a throw.
- **Bootstrap** (`bootstrap.dfy`) is the `load` listener and `startObserver` as a state machine
  `Uninitialized → Waiting → Active(target)`. Events carry the page's answers:
  - `typeof` at load;
  - the `querySelector` result;
  - mutation batches.

  Effects carry what the script does:
  - calls of the render invoker;
  - `setTimeout(startObserver, …)` with its delay;
  - the `observe` registration with `childList`, `subtree` and `characterData` all true.

  `Step` is one event and `Run` is a sequence of events.

`Dom` (`dom.dfy`) holds the abstract nodes and mutation records. A node is a DOM node type plus its
`textContent`, which may be `null`. A record is a child-list, character-data or attributes record.

The code's two capability checks differ, and the model keeps both. The `load` listener starts at
once when `typeof renderMathInElement !== 'undefined'`. The render invoker calls the library only
when the `typeof` is `'function'`. So a non-function value under that name starts the observer
immediately, and every render is then a no-op (`Binding.NonFunction`).

## Model

| member | source | states |
|---|---|---|
| RenderTrigger.MutationCallback | content_script.js:55-92 | The loop's flag is only ever set, never reset. It ends up set exactly when `NeedsRender` holds of the batch: some child-list record added an element or text node whose truthy `textContent` contains `$` or `\`. The render count then goes up by exactly one if the batch is render-worthy and stays unchanged otherwise, however many records or nodes qualify. |
| RenderTrigger.NeedsRenderConcat | content_script.js:56-81 | Concatenated batches are render-worthy exactly when one of the parts is, in both directions. |
| RenderTrigger.TriggerMonotone | content_script.js:56-66 | Appending records to a render-worthy batch keeps it render-worthy. In particular, a render-worthy prefix makes the whole batch render-worthy. |
| RenderTrigger.TriggerOrderIndependent | content_script.js:57-81 | Two batches holding the same records in any order get the same decision. |
| RenderTrigger.QuietRecordsIgnored | content_script.js:59-80 | Character-data records, attribute records and child-list records that added nothing never trigger. Adding one of them to a batch never changes the decision. |
| RenderTrigger.InertNodesNeverTrigger | content_script.js:64-65 | An added node that is neither an element nor a text node (a comment, a CDATA section, …) never triggers. Neither does a node whose `textContent` is `null` or empty. |
| RenderTrigger.MarkerFreeBatchNeverRenders | content_script.js:64-91 | A batch none of whose added nodes contains `$` or `\` is not render-worthy, so the render count stays unchanged. |
| RenderTrigger.MarkerFreeTextNeverTriggers | content_script.js:64-66 | Inserting a node whose text holds neither `$` nor `\` never triggers, whatever the node's type. |
| RenderTrigger.MarkerNodeTriggers | content_script.js:59-66 | One inserted element or text node containing `$` or `\` makes the batch render-worthy. This holds whatever else comes before or after it in the batch, and whatever nodes the same child-list record removed. |
| RenderTrigger.ExampleBatches | content_script.js:55-91 | A batch inserting `no math here` does not trigger. A batch inserting `$a$` next to `plain` does trigger. |
| RenderGuard.RenderLatexInNode | content_script.js:13-37 | The call always completes normally, even when the library throws. It makes no library call unless `typeof renderMathInElement` is `'function'`. When it is, it makes exactly one call, on the given node, with the fixed options. |
| RenderGuard.FirstOpening | content_script.js:17-24 | The delimiter list is read in order. The result is the index of the first pair whose opening marker starts the text, with no earlier pair opening it, or none when no pair opens it. |
| RenderGuard.RecognisableIffNoShadowing | content_script.js:17-24 | Every delimiter pair of a list can be selected exactly when no opening marker is a prefix of a later pair's opening marker. |
| RenderGuard.RenderOptionsNoShadowing | content_script.js:19-24 | In the fixed list, no opening marker is a prefix of a later one. |
| RenderGuard.RenderOptionsDelimiters | content_script.js:18-24 | The options list `$$` (display) first and `$` (inline) second. The display pairs are exactly `$$` and `\[`. Every pair can be recognised. |
| RenderGuard.RenderOptionsIgnoredTags | content_script.js:25-29 | The ignored tags are exactly script, noscript, style, textarea, pre and code, six entries in all. `throwOnError` is false. |
| RenderGuard.InlineFirstShadowsDisplay | content_script.js:19-21 | Listing `$` before `$$` would make display math unrecognisable. |
| Bootstrap.Step | content_script.js:95-133 | `Active` is never left, and once active only whole-container renders are emitted. A delivered batch emits a render exactly when it is render-worthy, and at most one. Entering `Active(t)` emits the render of `t` followed by the observer registration with all three options true. No state other than `Active` emits a render. |
| Bootstrap.RunIsConsistent | content_script.js:95-133 | For any events from `Uninitialized`, the effects fit the final state. Before `load` there are none. While waiting there are only timers, each after 2000 ms except possibly a first one after 1000 ms. Once active there are timers, then exactly one render of the found target, then the observer registration, then only whole-container renders. |
| Bootstrap.StepContainerRenders | content_script.js:84-91 | One step renders the whole container once if it delivers a render-worthy batch to an active observer, and not at all otherwise. |
| Bootstrap.AtMostOneRenderPerBatch | content_script.js:55-92 | Over any run, whole-container renders are at most the number of render-worthy batches. From `Active` they are exactly that number, and the state stays the same. |
| Bootstrap.RetryUnbounded | content_script.js:114-119 | From `Waiting`, any number n of failed lookups leaves the machine waiting. It will have scheduled exactly n timers of 2000 ms and rendered nothing: there is no bound on retries. |
| Bootstrap.FoundAfterRetries | content_script.js:95-119 | After any number of failed lookups, the first successful one renders the found target once and then registers the observer. |
| Bootstrap.LoadDecision | content_script.js:125-133 | At `load`, a non-function value under the library name starts exactly as a function does, yet renders then call nothing. An undefined name gives the same result whatever the container lookup would answer: the machine is waiting with one start scheduled after 1000 ms. A defined name looks the container up at once. Found, it is rendered and then observed. Missing, a retry is scheduled after 2000 ms. |
| Bootstrap.CapabilityNotRechecked | content_script.js:125-131 | When the library is missing at `load`, the start 1000 ms later does not look at the library again. A found container is then rendered and observed. |

## Left out

- KaTeX's `renderMathInElement`: the model does not include what it does to the page. A library
  call is recorded with its options and with the completion the library reports. Its idempotence
  on already-rendered spans is the library's own contract. So is the text it leaves behind, such as
  `Solve $x^2=4$ for x.` after rendering.
- `FirstOpening`: this is an assumption about how the library reads the delimiter list, namely
  that at one position of the text the first listed pair that opens there wins. It is stated so
  that the reason `$$` precedes `$` can be proved. The library's full span matching is not
  modelled.
- `document.querySelector`, the selector value `'body'`, and the `|| document.body` fallback of
  the callback's render: a lookup result arrives with each `load` or timer event. A render from
  the callback is aimed at `ChatContainer`, meaning the container looked up afresh.
- `setTimeout`: this is timing, not logic. A timer is an effect carrying its delay. Its firing is
  the `TimerFired` event.
- `MutationObserver` registration mechanics, asynchronous delivery and coalescing of batches:
  these belong to the browser's event loop. The observer registration is an effect, and batches
  are delivered one at a time as events.
- Events the page cannot deliver in a state become no-ops: a second `load`, a timer firing while
  none is pending, or a batch before the observer exists.
- The `binding` in effect at a later render: each `Render` effect stands for one call of
  `RenderGuard.RenderLatexInNode`. The binding the page holds at that moment is not part of the
  bootstrap state.
- The browser's computation of `textContent` from an element's descendants: a node carries the
  value `textContent` reports.
- `removedNodes`: the callback never reads them. They are modelled and shown never to trigger.
- `console.log`, `console.warn` and `console.error` diagnostics: these are logging only. The
  caught error value is dropped along with its log line.
- The commented-out targeted render and the commented-out `characterData` inspection: they are
  not live behaviour. Character-data records are shown to be ignored.
