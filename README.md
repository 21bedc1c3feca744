# jQuery StickIt, modelled in Dafny

StickIt is a jQuery plugin. It watches one trigger element and toggles CSS
classes on a set of target elements as the document scrolls past it. A
controller is built by `$.stickIt(targets, trigger, options)`. At construction
it merges the caller's options over `$.stickIt.defaultOptions`. It then fixes
a threshold `pos`, which is the trigger's top offset plus `offsetY`. It binds a
document scroll handler and puts every target in the "unstuck" state. On each
scroll it evaluates a directional predicate against `scrollTop`. In toggle
mode it then sticks or unsticks. In latch mode, the first event whose predicate
holds sticks every target and unbinds; other events do nothing.

The model has three modules:

- `StickItOptions` (`options.dfy`) holds the option record, the defaults and
  the `$.extend` merge.
- `StickItBehavior` (`behavior.dfy`) gives the behaviour as values:
  - the selector check;
  - `DetermineAction`;
  - the per-element class updates of `stick` and `unstick`;
  - a `Snapshot` of what the page sees (each target's classes, and whether
    the handler is bound);
  - `Scrolled` for one scroll event and `Run` for a sequence of them.

  The lemmas about toggle mode, latch mode and detaching are stated over
  these.
- `StickIt` (`controller.dfy`) holds the class `Sticky`. Its fields are
  `targets` (an array of class sets, changed in place), `options`, `pos` and
  `attached`. Its methods are `Init`, `Stick`, `Unstick`, `Attach`, `Detach`,
  `RunOnce`, `Action` and `OnScroll`. `Stick`, `Unstick`, `Detach`, `RunOnce`,
  `Action` and `OnScroll` tie the new targets or `State()` to the matching
  function of `StickItBehavior`; `Init` and `Attach` give the fields they set.
  `Register` is the entry point that can fail.

The values the page and the DOM supply are inputs:

- the number of elements the trigger selector found;
- the trigger's top offset;
- the scroll position of each event;
- the targets' class lists;
- the value of `$.stickIt.defaultOptions` at construction. It is a public,
  writable property, so a page may change the defaults for every later
  controller; `DefaultOptions` is the value the file gives it.

`pos` and `options` can only be changed by `Init`: it is the only method whose
`modifies` clause names them, so every other operation leaves them unchanged.

Two points where the code does less than one might expect:

- `init` runs its "target" check, whose message speaks of the targets, on the
  trigger collection a second time (stickyPlugin.js:46-47). An empty target
  set is therefore accepted, and construction fails only when the trigger set
  is empty.
- One might expect the targets to be always in exactly one of the two
  states, never both. When the two class lists overlap, `stick` and
  `unstick` both leave the shared classes present, because each removes first
  and then adds. When the lists are equal, both states hold at once. The model
  states the weaker property `Valid()`: all targets are stuck, or all are
  unstuck. It is proved, not required: `Stick`, `Unstick`, `RunOnce` and
  construction establish it, and `Attach`, `Detach`, `Action` and `OnScroll`
  keep it. `Init` need not keep it: `init` is public, and a later call merges
  the options again over defaults the page may have changed, so the class
  lists `Valid()` is stated over can change while the targets do not.

## Model

| member | source | states |
|---|---|---|
| StickItOptions.Extend | stickyPlugin.js:51 | each supplied option key takes its supplied value; each absent or undefined key keeps its default |
| StickItOptions.ExtendNothingGivesDefaults | stickyPlugin.js:147-154 | `DefaultOptions` is the file's `$.stickIt.defaultOptions`: with no options the settings merged over it are toggle true, ref "after", offsetY 0, active {"stick"}, inactive {"unstick"}, debug false |
| StickItBehavior.SelectorsFound | stickyPlugin.js:25-47 | the construction checks pass exactly when the trigger collection is non-empty, whatever the number of targets |
| StickItBehavior.DetermineAction | stickyPlugin.js:74-86 | "before" gives pos < scrollTop; "after" and any other value give pos > scrollTop; false in both directions at scrollTop == pos |
| StickItBehavior.StickClasses | stickyPlugin.js:62-66 | after stick an element has every active class and no inactive class that is not also active; classes in neither list are unchanged |
| StickItBehavior.UnstickClasses | stickyPlugin.js:68-72 | after unstick an element has every inactive class and no active class that is not also inactive; classes in neither list are unchanged |
| StickItBehavior.OverlapAlwaysPresent | stickyPlugin.js:62-72 | a class named in both lists is present after stick and after unstick |
| StickItBehavior.LastUpdateWins | stickyPlugin.js:62-72 | stick or unstick applied after either one gives the same classes as applying it alone |
| StickItBehavior.LastUpdateWinsAll | stickyPlugin.js:62-72 | the same absorption holds for the whole target list |
| StickItBehavior.StickAll | stickyPlugin.js:62-66 | stick on the whole collection keeps the number of targets, leaves every target stuck, and keeps every class neither list names |
| StickItBehavior.UnstickAll | stickyPlugin.js:68-72 | unstick on the whole collection keeps the number of targets, leaves every target unstuck, and keeps every class neither list names |
| StickItBehavior.Initial | stickyPlugin.js:139-141 | after construction the handler is bound and every target is unstuck, keeping the number of targets and every class neither list names, whatever the scroll position |
| StickItBehavior.Action | stickyPlugin.js:99-121 | the number of targets and every class neither list names are kept; toggle mode unsticks all on a true predicate and sticks all on a false one; latch mode sticks all on a true predicate, and otherwise nothing changes; the handler ends bound exactly when it was bound and the mode is toggle or the predicate is false (see ToggleScroll, LatchQuiet, LatchFires) |
| StickItBehavior.Scrolled | stickyPlugin.js:123-128 | an unbound controller ignores the event; a handler once unbound stays unbound; the number of targets and every class neither list names are kept (see DetachedRunIsInert, ToggleRun, LatchRun) |
| StickItBehavior.ToggleScroll | stickyPlugin.js:103-113 | in toggle mode one event leaves the targets unstuck when the predicate holds and stuck otherwise, keeping every class neither list names; the handler stays bound |
| StickItBehavior.ToggleLastEventWins | stickyPlugin.js:99-121 | in toggle mode two events give the state of the second event alone |
| StickItBehavior.ToggleIdempotent | stickyPlugin.js:103-113 | in toggle mode repeating an event at the same scrollTop changes nothing |
| StickItBehavior.ToggleRun | stickyPlugin.js:99-121 | in toggle mode a non-empty run of events ends in the state of its last event, still bound |
| StickItBehavior.LatchQuiet | stickyPlugin.js:115-119 | in latch mode an event with a false predicate changes nothing |
| StickItBehavior.LatchFires | stickyPlugin.js:93-121 | in latch mode an event with a true predicate sticks every target, keeping every class neither list names, and unbinds; every later event changes nothing |
| StickItBehavior.LatchRun | stickyPlugin.js:93-121 | in latch mode a run ends stuck and unbound if any event's predicate held, and otherwise in the state it started from |
| StickItBehavior.DetachedRunIsInert | stickyPlugin.js:88-91 | once unbound, no run of scroll events changes anything |
| StickItBehavior.Detached | stickyPlugin.js:88-91 | detach unbinds the handler and leaves the targets untouched |
| StickItBehavior.DetachIdempotent | stickyPlugin.js:88-91 | detaching twice gives the same state as detaching once |
| StickItBehavior.ScrollKeepsUniform | stickyPlugin.js:99-121 | every scroll event keeps the targets all stuck or all unstuck |
| StickIt.Sticky.constructor | stickyPlugin.js:139-141 | construction merges the options over the current defaults, sets pos to trigger top plus offsetY, binds the handler and unsticks every target |
| StickIt.Sticky.Init | stickyPlugin.js:43-60 | init stores the options merged over the current defaults and pos = trigger top + offsetY |
| StickIt.Sticky.Stick | stickyPlugin.js:62-66 | removes the inactive classes, then adds the active ones, on every target in place; establishes Valid |
| StickIt.Sticky.Unstick | stickyPlugin.js:68-72 | removes the active classes, then adds the inactive ones, on every target in place; establishes Valid |
| StickIt.Sticky.Attach | stickyPlugin.js:123-128 | binds the scroll handler; Valid holds afterwards exactly when it held before |
| StickIt.Sticky.Detach | stickyPlugin.js:88-91 | unbinds the scroll handler; targets, options and pos unchanged, so Valid holds afterwards exactly when it held before |
| StickIt.Sticky.RunOnce | stickyPlugin.js:93-97 | sticks every target, then unbinds |
| StickIt.Sticky.Action | stickyPlugin.js:99-121 | the new state is the toggle/latch transition of the old state at this scrollTop; Valid is kept |
| StickIt.Sticky.OnScroll | stickyPlugin.js:123-128 | a scroll event runs the action only while the handler is bound; Valid is kept |
| StickIt.Register | stickyPlugin.js:10-54 | construction fails exactly when the trigger collection is empty; on success the options are merged over the current defaults and the controller is in its initial state |

## Left out

- Selector resolution, `.offset().top` and `$(document).scrollTop()` are
  browser and jQuery calls. Their results are inputs to the model: a count, the
  trigger's top and each event's scroll position, all as integers. Fractional
  pixel offsets are not modelled.
- Class lists are sets of class names. The splitting of space-delimited class
  strings inside jQuery's `addClass` and `removeClass` is not modelled.
- Option values have their documented types. JavaScript coercion of other
  types, such as a truthy non-boolean `toggle` or a string `offsetY`, is not
  modelled. Option keys that the plugin never reads are dropped by the merge.
- The `$.error` message text and the `debug` console output are not modelled.
  `debug` is kept as an option value only.
- Event wiring is reduced to the `attached` flag. `unbind('scroll')` removes
  every scroll handler on the document. The undeclared `private` object is
  shared by every instance. Both are effects across instances, and the model
  has a single instance.
- `destroy` is not modelled. It nulls references, and reachability after
  that cannot be expressed.
- The `$.fn.stickIt` wrapper and the usage example at the end of the file are
  not modelled. The wrapper only iterates over a jQuery collection.
- The `data("stickIt", base)` back-reference on the trigger element is not
  modelled. It lives in jQuery's DOM data store.
