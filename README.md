# flip.js — a verified model of the navigation core

flip.js is a jQuery plugin that stacks the pages of a container and moves
between them. This project models its core in Dafny:

- the container (`Flip`): `add`, `get`, `has`, `hasPrev`, `hasNext`, `lock`,
  `unlock`, `mark`, `marker`, `prev`, `next` and the transition algorithm `goto`;
- the page lifecycle (`Page`): `position`, `step`, `match`, `init`,
  `require`, `fetch`, `mount` and `exit`, together with the counter of
  resources a page still needs;
- the event facility every container, page and component carries
  (`on`, `off`, `one`, `trigger` with its dotted-namespace matching);
- component composition: components are instantiated with their owner, and
  their `init` runs on the owner's first `init` event;
- the coercion of `data-*` attributes (`Tools.attr.map`), including an
  integer model of `parseInt`;
- the fallback script loader's status bookkeeping (`window.require`).

The browser is a `Window` object. It holds `window.page`, the address-bar
fragment, the requests in flight, and a log of what became visible
(events fired with the handlers they ran, content written, timers armed
and cleared).

The completion of a request is an explicit external step,
`Window.Arrive`. So is the end of an animation, `Flip.Arrived`. Both may
come in any order the caller chooses.

`goto` is specified against a value-level interpreter. `Container.Apply`
says what each act of `goto` does to the pages and the browser. The acts
are: `init`, `exit` or `trigger` on a page; leaving a page; initialising
the neighbours; entering a page. `Container.Navigate` gives the scene that
each of the four outcomes of `goto` leaves behind: rejected, stepped
inside the page, vetoed by the lock, committed.

Modules: `Events` (events.dfy), `Components` (components.dfy),
`Attributes` (attributes.dfy), `Markers` (markers.dfy), `Loader`
(loader.dfy), `Container` (container.dfy), `Prefetch` (prefetch.dfy,
the finding below) and `Scenarios` (scenarios.dfy, a client of the page
lifecycle).

Where the repository's own description and the code disagree, the model
follows the code:

- **Trigger matching.** A trigger of type `t` runs the handlers under a
  name `e` when `e + "."` starts with `t + "."` (flip.js:1373). So
  `trigger('init')` runs the handlers under `init.call`, and
  `trigger('init.call')` does not run those under `init`. The description
  states the opposite direction.
- **Trigger order.** Handlers run grouped by name, in the order the names
  were registered, and each list in its own order. They do not run in one
  global registration order. A name deleted by `off(name)` and registered
  again goes to the end. This is the order `for ... in` visits names that
  are not array indices (see "## Left out").

One disagreement goes the other way. The description says that `goto`
initialises the neighbours of the page it enters. The code calls
`next.prev()` and `next.next()`, which navigate and then throw (see
"## Findings"). `Prefetch` models that code as written, but `Goto` uses
the corrected prefetch: the neighbours asked for are initialised.

## Model

| member | source | states |
|---|---|---|
| Events.MatchesIff | flip.js:1373 | A name matches a trigger type exactly when it is that type or starts with the type followed by a dot. |
| Events.NamespaceDirection | flip.js:1373 | `init.call` matches `init`. `init` does not match `init.call`. `loadx` does not match `load`. |
| Events.MatchesInit | flip.js:1373 | Handlers under `init` are reached only by `trigger('init')`. |
| Events.On | flip.js:1345-1349 | The handler is appended to its name's list, or starts a new list. A new name goes to the end of the name order. Every other name and list is unchanged. The table stays well formed. Names are taken not to be Object.prototype members (see "## Left out"). |
| Events.One | flip.js:1381-1388 | A self-removing wrapper with a fresh identity is subscribed. The table stays well formed. Names are taken not to be Object.prototype members (see "## Left out"). |
| Events.OffAll | flip.js:1359-1360 | The name is gone. Every other name keeps its list. An unregistered name leaves the table as it was. |
| Events.Off | flip.js:1351-1363 | The loop's result is the list without the callback, and no copy of it is left. A name that is not registered leaves the table unchanged. |
| Events.RemoveSpec | flip.js:1354-1357 | No occurrence of the removed handler is left. Every other handler occurs as often as before. Nothing new appears. |
| Events.RemoveConcat | flip.js:1354-1357 | Removal works piecewise over a concatenation, so the remaining handlers keep their order. |
| Events.RemoveAbsent | flip.js:1354-1357 | Removing a handler that is not in the list leaves the list unchanged. |
| Events.Trigger | flip.js:1365-1379 | The dispatch loop runs the handlers of every matching name, in name order and list order, and then `on<type>` if the object has it. Afterwards every wrapper on a matching list has removed itself. Name order is registration order, as `for ... in` visits names that are not array indices (see "## Left out"). |
| Events.Walk | flip.js:1374 | The inner loop walks a snapshot of the list. Every handler of that list runs, even while wrappers replace the live list. The live list ends without its wrappers. |
| Events.Action | flip.js:1382-1386 | A wrapper runs its callback and calls `off` with itself on the live list. The live list becomes the snapshot minus the wrappers that ran. |
| Events.SelectedMembers | flip.js:1372-1374 | A handler runs for a trigger exactly when it is registered under some matching name. |
| Events.SelectedBlock | flip.js:1372-1374 | The handlers of one matching name run as one contiguous block, in registration order. |
| Events.OnRunsLast | flip.js:1345-1374 | A handler added with `on` runs on the next matching trigger, right after the handlers already under its name. |
| Events.OneRunsOnce | flip.js:1381-1388 | A `one` handler runs on the first matching trigger, and no later trigger of any type runs it. |
| Events.OneGone | flip.js:1381-1388 | After the first matching trigger the wrapper is in no list. |
| Events.OffUndoesOn | flip.js:1345-1363 | `off(name, cb)` after `on(name, cb)` leaves no copy of `cb` under `name`. `off` on an unregistered name is a no-op. |
| Components.Booted | flip.js:1401-1406 | The initialiser calls `init` exactly on the registered components that have an `init` method. |
| Components.Composed | flip.js:1394-1407 | A new owner's table starts empty and holds the initialiser subscribed with `one('init')`. It is well formed. |
| Components.ComponentsStartOnce | flip.js:1401-1406 | Callers may then call `on`, `one`, `off(name, cb)`, `off(name)` and `trigger`, in any sequence. The components' initialiser runs once if a `trigger('init')` comes before the first `off('init')`, and never otherwise. |
| Components.ReplayStarts | flip.js:1401-1406 | The initialiser is subscribed through a wrapper under `init` only. Over any sequence of operations, `off(name)` included, it runs at most once. It runs exactly when an `init` is triggered before `off('init')` deletes it. |
| Attributes.Map | flip.js:1257-1281 | The coerced value is stored under the key. Every other key is unchanged. |
| Attributes.BoolKeys | flip.js:1259-1261 | A boolean key is true exactly for "true" and "1" and false for any other text. |
| Attributes.TimeKeywords | flip.js:1263-1265 | A duration key maps `slow`, `normal` and `fast` to 600, 400 and 200 ms. An empty value gives NaN. |
| Attributes.TimeNumbers | flip.js:1263-1265 | A duration written as an integer, optionally followed by a unit, is stored as that integer. |
| Attributes.UntypedKeys | flip.js:1274-1277 | A key without a rule turns "true" and "false" into booleans and keeps every other value as its text. |
| Attributes.ParseRendered | flip.js:1264 | `parseInt` reads back the decimal text of every integer, and stops at a following character that cannot continue a number. |
| Attributes.HexPrefix | flip.js:1264 | "0x1A" parses as 26, in base 16. |
| Attributes.HexEmpty | flip.js:1264 | "0x" with no digits gives NaN. |
| Attributes.SignedWithUnit | flip.js:1264 | Leading blanks are skipped, the sign is kept and a unit is ignored: "  -12px" gives -12. |
| Markers.Compile | flip.js:173-174 | A string marker becomes an anchored expression. An existing expression is kept. |
| Markers.EscapeInjective | flip.js:174 | Two different markers give two different expression sources. |
| Markers.MatchLiteral | flip.js:803-805 | An added page's expression, read literally, accepts exactly the string its element declared. |
| Markers.Chosen | flip.js:260 | `mark` writes its argument if given, else the page's mask, else the text of the page's marker. |
| Markers.Assign | flip.js:260 | Assigning `location.hash` stores the value without one leading '#'. The browser's percent-encoding is not modelled. |
| Markers.TextOfPattern | flip.js:260 | With no argument and no mask, `mark` writes the declared marker less its backslashes, which is the marker itself when it has none. |
| Markers.CollapseSingle | flip.js:269 | A marker with no doubled slash is read back unchanged. |
| Markers.CollapseIdempotent | flip.js:269 | Collapsing twice gives the same as collapsing once. |
| Markers.FirstRunOnly | flip.js:269 | Only the first run of slashes collapses: "a//b//c" reads as "a/b//c". |
| Markers.MarkRoundTrip | flip.js:259-270 | `marker()` reads back what `mark` wrote, for a marker without a leading '#' or a doubled slash that the browser stores unencoded. |
| Markers.MarkHash | flip.js:259-270 | A '#' written at the front is not part of the marker read back. |
| Markers.ReadEmpty | flip.js:269 | `marker()` is null exactly when the fragment is empty. |
| Loader.Deps | flip.js:1076-1084 | The dependencies are the prefix of the list up to the first empty item. |
| Loader.FirstPending | flip.js:1090-1092 | The scan stops at the first dependency that is not loaded; every one before it is loaded. |
| Loader.ScriptLoader.constructor | flip.js:1066-1150 | An empty list runs the callback at once. In queue mode only the first dependency is started; otherwise every script is started. A style sheet never gets a status. |
| Loader.ScriptLoader.Load | flip.js:1109-1129 | A script gets status 1. A `.css` dependency is skipped and keeps its status. |
| Loader.ScriptLoader.Arrive | flip.js:1086-1104 | The arrived script gets status 2. When all are loaded the callback has run exactly once. Otherwise, in queue mode, the first pending dependency is started. The loader's invariant is kept. |
| Loader.ScriptLoader.QueueAdvance | flip.js:1095-1098 | In queue mode the script that arrives is the one the queue was on, and every dependency after it has not been started. |
| Loader.ScriptLoader.QueueNext | flip.js:1095-1098 | After the next pending dependency is started in queue mode, it is the first pending one. Every dependency before it is loaded and none after it is started. It is loading unless it is a style sheet. |
| Loader.ScriptLoader.StyleStalls | flip.js:1110-1111 | With a style sheet in the list, the callback never runs and the sheet stays at status 0. |
| Container.IndexOf | flip.js:772-777 | The index found holds the page, and no later index does. |
| Container.HitKeys | flip.js:225 | A page is matched by its object, its id and its name, and the string "[object Object]" matches every page. |
| Container.NamelessIsZero | flip.js:225 | Under `==` an empty name equals 0, a blank-padded number equals its value, and "7a" equals no number. |
| Container.Apply | flip.js:308-334 | The page acts of `goto` (init, exit, trigger, leave, neighbours, enter) as one interpreter over the lifecycle of every page. No act adds or drops a page's entry. |
| Container.ApplyFragment | flip.js:308-334 | No act on the pages writes the address bar. |
| Container.ApplyGrows | flip.js:308-334 | Every act only appends to the log and to the requests in flight. |
| Container.StepGrows | flip.js:1019-1056 | `init`, `exit` and one `trigger` on a page only append to the log and to the requests in flight. |
| Container.LeaveGrows | flip.js:310-311 | Leaving a page only appends to the log and to the requests in flight. |
| Container.AroundGrows | flip.js:325-331 | Initialising the neighbours only appends to the log and to the requests in flight. |
| Container.EnterGrows | flip.js:323-333 | Entering a page only appends to the log and to the requests in flight. |
| Container.LeaveEffects | flip.js:310-311 | Leaving a page adds to the log its cleared refresh timer (when `exit` clears it), then `beforeleave` with the handlers it ran. It drains that page's `beforeleave` wrappers. No other page, no request and not `window.page` changes. |
| Container.NavigateOutcomes | flip.js:295-363 | Every outcome keeps the pages. A rejected target changes nothing. A step changes only the current page's step, by one toward the target. A lock keeps the position and the fragment. A commit points at page `n`, counts one more flip, queues its animation last, writes the arrival marker and fires `mark` last. |
| Container.VetoOutcome | flip.js:310-314 | A locked container adds to the log exactly what leaving the current page adds: `exit`, then `beforeleave`. No request is issued, `window.page` stays, and no other page changes. |
| Container.CommitOutcome | flip.js:310-336 | A committed move runs in this order. First the current page's `exit` and `beforeleave` entries. Then everything `init` on page `n` logs and requests. Then `beforeenter` on page `n`, second to last. `mark` comes last. |
| Container.Settling | flip.js:342-349 | The animation callback removes the oldest move, sets `window.page` to the page arrived at, and logs `flip`, then `leave` on the page left, then `enter` on the page arrived at. Nothing else changes. |
| Container.Window.Arrive | flip.js:916-943 | A completed request leaves the table of requests in flight and decrements its page's count, keeping the count equal to the requests in flight. A script mounts unless the page waits, and puts back the saved `window.page` when the global page is not indexed. A missing global page throws. An ajax response becomes the page's template. While the page still requires a resource nothing mounts. The page's `loaded` flag, steps, events and the log stay as they were whenever the arrival does not mount. |
| Container.Page.constructor | flip.js:529-752 | Each setting is the coerced `data-*` attribute when the element sets it, else the prototype's default. `data-data` is kept as its text, an empty text included, so the page renders it. `slide_duration` defaults to 400 ms. The page starts unloaded, with no required resources and an event table holding the component initialiser. Its `on<t>` methods are those `HooksOf` leaves. |
| Container.HooksOf | flip.js:1240-1255 | A page keeps every `on<t>` method of the prototype except `onresize`, `oncall` and `ondrop` when its element sets them: those have no `fn` rule, so their text replaces the method. |
| Container.Page.Requests | flip.js:909-944 | One request per source, for this page: a script exactly when the URL names a `.js` file. |
| Container.Page.Sources | flip.js:1033-1037 | One source each for `tpl` and `url` when set, the template first. |
| Container.Page.Emit | flip.js:1365-1379 | A page's trigger logs the handlers it ran and drains the page's wrappers. |
| Container.Page.Position | flip.js:772-777 | The scan from the end returns the last index holding the page, which is what `Locate` gives, and changes nothing. |
| Container.ScanNeverEnds | flip.js:768-777 | As written, the scan for a page that is not listed has not returned after any number of turns, although its doc comment promises -1. |
| Container.ScanFinds | flip.js:772-777 | As written, the scan for a listed page returns its last index within as many turns as there are pages. |
| Container.Locate | flip.js:768-777 | As the doc comment says: -1 exactly when the page is not listed, otherwise the last index holding it. |
| Container.LocateListed | flip.js:768-777 | On a listed page the scan as written and `Locate` give the same index. |
| Container.Page.Step | flip.js:886-891 | The target is `current + walk`, or `n` with no walk. The step changes, and `true` is returned, exactly when the target is in [0, steps). Otherwise nothing changes. |
| Container.Page.Match | flip.js:803-805 | Succeeds exactly when the page's expression is the pattern of the text, and stores the capture, or null. |
| Container.Page.Exit | flip.js:1053-1056 | The refresh timer is cleared exactly when the page refreshes and does not refresh while hidden. |
| Container.Page.Fetch | flip.js:909-944 | A script is requested with this page as `window.page` and saves the previous one. Anything else is requested by ajax. |
| Container.Page.Require | flip.js:951-956 | One more resource is required and one more request is in flight, so the count stays equal to the requests. |
| Container.Page.Init | flip.js:1019-1047 | The page's state and the browser after `init` are as the arm-then-load lifecycle function gives them. |
| Container.Page.ArmTimer | flip.js:1023-1026 | The refresh timer is armed, and logged, only when there is none and the page refreshes. |
| Container.Page.Proceed | flip.js:1028-1044 | A loaded page fires `init`; a page with sources requests them; any other page settles. |
| Container.Page.RequestSources | flip.js:1033-1038 | The count grows by the number of sources, and their requests are appended in order. |
| Container.Page.Settle | flip.js:1040-1044 | The steps are counted, then `load` and `init` fire. |
| Container.Page.Mount | flip.js:830-858 | Data and template are replaced when given. It answers "not ready" exactly while a resource is required, and throws exactly when there is nothing to render. A mount that does not render leaves the page and the log as they were. A mount that renders writes the content and counts the steps, sets `loaded` unless waiting, and fires `load` then `init`. |
| Container.Page.Show | flip.js:842-856 | The rendering half of `mount`: the content is written, `loaded` is set unless waiting, the steps are counted, and `load` then `init` fire. |
| Container.Page.InitLoaded | flip.js:1028-1031 | A loaded page only fires `init`: nothing is requested or counted again. |
| Container.Page.InitFetching | flip.js:1033-1038 | An unloaded page with sources counts one required resource per source and issues one request for each. Nothing fires. |
| Container.Page.InitLocal | flip.js:1040-1044 | An unloaded page with nothing to fetch counts its steps and fires `load`, then `init`. |
| Container.Page.InitBalanced | flip.js:1019-1047 | `init` keeps the required count equal to the page's requests in flight. |
| Container.Flip.constructor | flip.js:36-153 | A new container has no pages, no current page (index -1), is unlocked, has id counter 1, and holds the component initialiser. |
| Container.Flip.Emit | flip.js:1365-1379 | The container's trigger logs the handlers it ran and drains its wrappers. |
| Container.Flip.Add | flip.js:160-188 | The page gets the next id, and the counter grows by one. It gets the back-reference, the shared data under its name, and an expression for its marker. It is initialised when it asks to load. It is appended to `pages` or `nodex` by its `index` flag, leaving the other list alone. `update` fires, and the result is true. No two pages of `pages` and `nodex` share an id. |
| Container.Flip.Attach | flip.js:161-174 | Id, back-reference, shared data and marker expression. The page is in neither list. |
| Container.Flip.Enlist | flip.js:180-185 | `init` when asked for, the push, then `update`. |
| Container.Flip.Boot | flip.js:180-181 | `init` runs exactly when the page has `load` set. |
| Container.Flip.Publish | flip.js:183-185 | The push, then `update`. |
| Container.Flip.File | flip.js:183 | Appends to `pages` when indexed and to `nodex` otherwise. No page appears twice, and every page points back to the container. |
| Container.Flip.Get | flip.js:223-228 | The result is null exactly when no page of `pages` then `nodex` matches. Otherwise it is the last one that matches. |
| Container.Flip.Neighbours | flip.js:242-252 | `hasPrev` holds exactly when `has(current - 1)` does, and `hasNext` exactly when `has(current + 1)` does. |
| Container.Flip.Lock | flip.js:276-278 | The container is locked. |
| Container.Flip.Unlock | flip.js:284-286 | The container is unlocked. |
| Container.Flip.Mark | flip.js:259-262 | The written marker is the argument, else the page's mask, else its marker text. The fragment stores it. `mark` fires. `marker()` reads it back when it has no leading '#' and no doubled slash. |
| Container.Flip.Goto | flip.js:295-363 | The result is true exactly for a step or a commit. The container, its pages and the browser end in the scene `Navigate` gives for the verdict on the resolved index. A commit initialises the neighbours asked for, the corrected prefetch of the "## Findings" row for flip.js:325-331. |
| Container.Flip.Prev | flip.js:204-206 | `goto(current - 1)`, with the same contract. |
| Container.Flip.Next | flip.js:214-216 | `goto(current + 1)`, with the same contract. |
| Container.Flip.PrevOf | flip.js:785-787 | A page's `prev`: `goto` to the index before its position. |
| Container.Flip.NextOf | flip.js:795-797 | A page's `next`: `goto` to the index after its position. |
| Container.Flip.NoWrap | flip.js:204-216 | `prev` at the first page and `next` at the last are rejected and leave everything unchanged. There is no wrap-around. |
| Container.Flip.Travel | flip.js:301-363 | `goto` on an index: the result and the final scene are as the verdict says. |
| Container.Flip.Resolve | flip.js:297-298 | A page argument becomes its position, and nothing changes. |
| Container.Flip.Walk | flip.js:301-363 | Rejects a missing or current index, and otherwise leaves the current page or enters the first one. |
| Container.Flip.Switch | flip.js:308-315 | From a page: a step inside it, or leaving it. |
| Container.Flip.Depart | flip.js:310-314 | The page is left and the move stops there when locked. Otherwise the move is committed. |
| Container.Flip.Enter | flip.js:317-362 | The first move of a container with no page always commits. |
| Container.Flip.Leave | flip.js:310-311 | `exit()`, then `beforeleave`, on the current page. |
| Container.Flip.StepHere | flip.js:309 | It steps exactly when the verdict is a step, and then only the current page's step moves. |
| Container.Flip.TryStep | flip.js:309 | Steps exactly when the page has steps, the origin is the user and the next step exists. The page's step moves by one toward the target. |
| Container.Flip.Commit | flip.js:317-362 | Points at page `n`, enters it with its neighbours, marks it and queues the animation. |
| Container.Flip.Point | flip.js:318-320 | `page`, `current` and the flip counter, moved to a different page. |
| Container.Flip.Reach | flip.js:318-333 | `page` moves to page `n`, a different page, which is then entered with its neighbours. The page left stays listed. |
| Container.Flip.Land | flip.js:323-333 | `init()` on the page entered, its neighbours as asked, then `beforeenter`. |
| Container.Flip.Enters | flip.js:323-333 | Runs `init()` on page `n`, then on the neighbours as asked, then its `beforeenter`, each step as the lifecycle functions say. |
| Container.Flip.Around | flip.js:325-331 | The previous page, then the next page, are initialised when the entered page asks for them (the intended behaviour; see Findings). |
| Container.Flip.Finish | flip.js:336-362 | `mark()`, then the animation, with duration 0 when direct and otherwise the entered page's `slide_duration`. |
| Container.Flip.Signal | flip.js:336 | `mark()` on arriving: the marker is written and `mark` fires. |
| Container.Flip.Queue | flip.js:338-361 | The animation from the page left to the page entered is queued last. |
| Container.Flip.Arrived | flip.js:342-349 | The oldest animation's callback leaves the scene that `SettleS` gives. |
| Container.Flip.Complete | flip.js:342-349 | The callback as two halves, returning the settled scene. |
| Container.Flip.Greet | flip.js:346-348 | `leave` on the page left, when there is one, then `enter` on the page arrived at. |
| Container.Flip.Unqueue | flip.js:344-345 | `window.page` is set, and `flip` fires on the container. |
| Scenarios.BothResponses | flip.js:1033-1038 | Take a page with a template and a data url, neither a script. After `init` the first response leaves it unloaded, with its events and the log untouched, whichever response it is. The second response mounts it. |
| Scenarios.Requested | flip.js:1033-1038 | `init` on such a page leaves it unloaded with two required resources and the two ajax requests in flight, template first. |
| Scenarios.EmptyDataMounts | flip.js:842-848 | A page whose element sets `data-data=""`, with nothing to fetch, mounts: the empty text is rendered and nothing throws. |
| Scenarios.NotScript | flip.js:916 | An address without the letter 'j' is not fetched as a script. |
| Prefetch.PrevThrows | flip.js:325-327 | As written, an unlocked container throws as soon as the entered page asks for the page before it. |
| Prefetch.PrevThrowsExample | flip.js:325-327 | Two pages, the second asking for the first, unlocked: the neighbour code throws. |
| Prefetch.LockedNeverLoads | flip.js:325-331 | As written, a locked container never initialises the neighbour, and leaves the entered page again. |
| Prefetch.AroundInits | flip.js:325-331 | As intended, the neighbours asked for are initialised, the previous one first. Every other page, the entered one included, keeps its lifecycle state. |
| Prefetch.IntendedLoadsPrev | flip.js:325-331 | Where the code as written throws, the intended behaviour initialises the previous page. |

## Left out

- Rendering, animation, scrolling and CSS. The DOM writes those calls make are logged as effects (`Html`). An animation is a queued `Move` that the host completes with `Flip.Arrived`.
- `Flip.init` (flip.js:370-518) is not modelled: the scan of the container's children, the choice of start page, the initial `goto`, and the input handlers (resize, keys, wheel, touch, scroll) are browser events and timers. `Page.constructor` takes the children's coerced attributes as a parameter instead.
- The debounce `move`, `setInterval` and `Tools.time`. They are host timing; a refresh timer is a flag with logged set and clear effects.
- The network and script tags. A request is a `Fetch` record and its completion is `Window.Arrive`, with the response body as a parameter. The loader's cache-busting query string uses `Math.random` and is not modelled.
- `Tools.render` (Mustache, Handlebars): rendering is the `Rendered(template, data)` markup value.
- `Page.match` uses `RegExp.exec`, a foreign engine. The model reads the page's expression as the literal text it was compiled from.
- `Page.Position`: requires the page to be listed. The source loops forever for a page that is not (see "## Findings"). `Goto`, `PrevOf` and `NextOf` carry that requirement too.
- `has(page)` with a page object calls `position()` and is not modelled, for the same reason. `Has` is the numeric form.
- `each` (flip.js:194-196) calls a caller-supplied function on every page; the model has no caller code.
- `Page.call`, `clone`, `preload`'s click bindings, `Page.has(component)`, `Page.show` and `Page.mark` are not modelled. `show` is `Goto` on the page and `mark` is `Flip.Mark`.
- The shared prototype values (`pages`, `nodex` and `data`, declared on the prototype at flip.js:53-78) are per-instance fields here. Containers that share them are not modelled.
- Event arguments (`trigger(type, args)`): handlers are opaque tokens, so the `flip` and `update` arguments are not recorded.
- A user handler cannot change an event table while it is dispatched. The one change modelled is a `one` wrapper removing itself. So the `for ... in` behaviour on keys deleted during a dispatch is not modelled.
- Markers.Assign: the fragment is a plain string. A browser that assigns `location.hash` also percent-encodes a space, `"`, `<`, `>`, a backquote, control characters and every non-ASCII character. That encoding is not modelled.
- Markers.MarkRoundTrip: holds only for markers the browser stores unencoded. After `mark('a b')` the source's `marker()` gives "a%20b".
- Container.Flip.Mark: `marker()` reads back what was written only when the browser does not encode it (see Markers.Assign).
- Container.Flip.Mark: requires an argument or a current page. Called with neither, the source throws a TypeError reading `this.page.mask`.
- Container.Flip.Verdict: handlers and `on<t>` methods cannot call back into the container (`lock`, `unlock`, `goto`, `mount`), so the verdict reads `locked` as it was before `goto`. In the source `locked` is read after `beforeleave` fires. So a `beforeleave` handler or an `onbeforeleave` method (settable through `data-onbeforeleave`) that calls `lock()` vetoes the move it is told about, and the model does not capture that.
- Container.Numeric: only integers are converted: signed decimal, or unsigned "0x" hexadecimal. JavaScript's `==` also converts "1.0", "1.", "1e3", "0b1" and "0o7". So in the source a page named "1e3" is found by id 1000, and in the model it is not.
- Attributes.ParseInt: the value is exact. The source's `parseInt` returns a double, which loses precision on long runs of digits.
- Container.Flip.Queue: models `singly` mode, the default, where one element is animated. With `singly` false, `goto` animates `$('html,body')`. jQuery then runs the completion callback once per element, so `flip`, `leave` and `enter` fire twice. That double callback is not modelled.
- Attributes.Coerce: a duration that names a built-in object member, such as "toString", is truthy in the `{slow, normal, fast}` lookup, so the source stores that member. The model reads it with `parseInt`, which gives NaN.
- The `fn` rule stores `Call(name)`. The global function it forwards to is not modelled.
- Container.TextOf: a text setting whose attribute was coerced to a boolean ("true" or "false") counts as unset. In the source it would hold the boolean, and `fetch` would then throw on it.
- Container.TimeOf: a NaN duration counts as 0. NaN is never positive, so the refresh timer behaves the same; an animation of NaN duration is a rendering matter.
- Container.Apply: an act on a page without an entry, or on a position outside the list, is the identity. In the source such an act cannot happen.
- Container.Navigate: its guards hold off scenes a container is never in. `Goto` only ever calls it on sound scenes.
- Container.Flip.Goto: uses the corrected neighbour prefetch, not the code as written. With two pages, page 1 asking for the page before it, unlocked, `goto(1)` in the source commits a move to page 0 and then throws at `false.init()`. The model's `Goto` initialises page 0 instead and completes the move to page 1 with `beforeenter`, `mark` and the queued animation.
- Container.Page.constructor: a `data-data` of "true" or "false" is coerced to a boolean in the source, and `mount` then writes that boolean. The model counts it as no data, so a mount without a template throws there.
- Container.Flip.Prev: inherits the corrected neighbour prefetch of Container.Flip.Goto, where the source throws.
- Container.Flip.Next: inherits the corrected neighbour prefetch of Container.Flip.Goto, where the source throws.
- Container.Flip.PrevOf: inherits the corrected neighbour prefetch of Container.Flip.Goto, where the source throws.
- Container.Flip.NextOf: inherits the corrected neighbour prefetch of Container.Flip.Goto, where the source throws.
- Container.Flip.Commit: enters with the corrected neighbour prefetch of Container.Flip.Goto, where the source throws.
- Container.Flip.Reach: enters with the corrected neighbour prefetch of Container.Flip.Goto, where the source throws.
- Container.Flip.Land: enters with the corrected neighbour prefetch of Container.Flip.Goto, where the source throws.
- Container.Flip.Enters: runs the corrected neighbour prefetch of Container.Flip.Goto, where the source throws.
- Container.Flip.Around: is the corrected neighbour prefetch itself: it initialises the neighbours asked for. The code as written calls `next.prev()` and `next.next()` (see Prefetch and "## Findings").
- Events.On: event names are assumed to be neither array indices nor Object.prototype member names. For a name such as "toString", "constructor", "valueOf" or "__proto__", `typeof this.event[event]` is 'function', not 'undefined', so the source's `push` throws a TypeError. The model registers the handler.
- Events.One: subscribes through `on`, so an Object.prototype member name throws in the source as it does for Events.On. The model subscribes the wrapper.
- Events.Off: for an Object.prototype member name, `event in this.event` holds in the source, so `off(name, cb)` stores an own empty list under that name. The model leaves the table unchanged.
- Events.Trigger: walks the names in registration order. A `for ... in` walk visits array-index names ("0", "1", "42") first, in ascending numeric order, and only then the others in creation order. So after `on('1.x', h1); on('1', h2)`, the source's `trigger('1')` runs h2 then h1 and the model runs h1 then h2. The model assumes event names are not array indices.
- Container.Flip.Add: page names are assumed not to be Object.prototype member names, and markers are assumed to be valid expression sources. In the source, `page.name in this.data` holds for a page named "constructor", which then gets the function `Object` as its data. `new RegExp` throws a SyntaxError for a marker such as "a(", so `add` stops before the push. The model takes shared data only for a name that is a key of the table, and always compiles the marker.
- Container.Flip.Attach: the first half of Container.Flip.Add, under the same two assumptions: names are not Object.prototype members, and markers compile.
- Markers.Compile: the marker is assumed to be a valid expression source. `new RegExp('^' + … + '$')` throws a SyntaxError for an invalid one such as "a(", and the model always yields the expression.
- Prefetch.AroundAsWritten: stops at the thrown error. The effects of the nested navigation before the throw are not modelled.
- Integers are unbounded. The `flip` and `auto_increment` counters in the source are doubles, which do not overflow in practice.

## Findings

| source | as written | input that shows it | evidently intended | confidence | as-written member | corrected member |
|---|---|---|---|---|---|---|
| flip.js:325-331 | `next.load_prev && next.prev()` then `next.prev().init()`, and the same with `next`. A page's `prev()` and `next()` call `goto` and return a boolean, so the code navigates away from the page it is entering and then calls `init()` on a boolean. | Two pages, the second with `load_prev` set, container unlocked, `goto(1)`: the first `prev()` commits a move to page 0 and returns true. The second returns false, and `false.init()` throws a TypeError. | Initialise the neighbour pages (`pages[n - 1].init()`, `pages[n + 1].init()`) while entering page `n`. | not executed | Prefetch.PrevThrowsExample | Prefetch.AroundInits |
| flip.js:768-777 | `position()` counts down from `pages.length` with `pages[--i]` and stops only when it meets the page. Its doc comment says it returns "the position or -1". | A page that is not in its container's `pages`, such as one added with `data-index="false"` (it goes to `nodex`): `pages[-1]` and every lower index are `undefined`, so the loop never ends. | Return -1 when the page is not listed, as the doc comment says. | not executed | Container.ScanNeverEnds | Container.Locate |
