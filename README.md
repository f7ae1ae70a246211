# chaturbate-browser core in Dafny

This project models the core of chaturbate-browser, a Node.js wrapper that
drives a headless Chrome over the DevTools protocol. It has two parts.

- **The host-side object `ChaturbateBrowser` (index.js).** It holds the
  browser process handle, the debugger connection, the loaded document and a
  queue of DOM children waiting for their HTML. `_onChildInserted` queues a
  task and arms a timer. Each armed timer runs `_processQueue`, which pops a
  task, emits `child_inserted` when its fetch succeeded, and arms the next
  timer while tasks remain. `stop()` tears everything down.
- **The two in-page instrumentation scripts (scripts/profile.js and
  patch.js).** Each one does three things:
  - it wraps the live chat socket's callbacks so that every event is first
    written to the debug console as a side-channel line;
  - it replies `init` with a settings snapshot;
  - scripts/profile.js also disposes of the media player.

  A side-channel line is a prefix followed by the JSON of `{type, payload}`.
  The settings are serialised with a replacer that keeps only top-level
  non-object fields.

## How the model is organised

| module (file) | what it holds |
|---|---|
| `Options` (options.dfy) | `Option` |
| `JsValues` (js_values.dfy) | JavaScript values, `typeof`, property access that throws on undefined and null, and `JSON.stringify` without a replacer (section 25.5.2 of ECMA-262, including the QuoteJSONString escapes) |
| `SideChannel` (side_channel.dfy) | the replacer, `JSON.stringify` with it, and the reply line |
| `PageModel` (page.dfy) | classes for the window (its debug console as an ordered trace of steps, and the `__patch_*` globals), the socket, the socket handler and the player; what calling a function value does; the hook installation; `reply` |
| `ProfileScript` (profile_script.dfy) | `getSettings`, the player disposal, and the whole scripts/profile.js |
| `PatchScript` (patch_script.dfy) | the `init` payload of patch.js, and the whole patch.js with its completion value |
| `Browser` (browser.dfy) | the `ChaturbateBrowser` class |

### Modelling choices

- **Function values.** A hook wrapper is a value, `Hook(source, event,
  forwardsArg, original)`. `Call` gives the steps calling it produces: one
  debug line, then the call of the original. Calling something that is not a
  function yields a `NotAFunction` step, which is a TypeError.
- **The prefix a wrapper writes with.**
  - scripts/profile.js captures its `PREFIX` constant (source `Captured`).
  - patch.js reads `window.__patch_prefix` when the wrapper fires (source
    `WindowPrefix`).
- **Fetch results.** The HTML fetch a task carries is given as its settled
  result: `Fetched(outerHtml)` or `FetchFailed`. The `_processQueue` step
  processes it atomically.
- **`setTimeout`.** Each call of `_next` on a non-empty queue arms a timer.
  The field `pendingSteps` counts armed timers that have not fired. A
  processing step runs only when one has been armed. The invariant `Valid`
  (every queued task has a timer armed for it) holds from construction and
  is kept by every operation.
- **Inputs.** The values of `$.cookie('csrftoken')`, of the substituted
  `<PATCH_PREFIX>` and of the handles returned by the launcher and the
  debugger client are parameters.

### Behaviour of the code worth knowing

- **Tasks are popped newest-first.** `this.queue.pop(0)` (index.js:225)
  removes the last element, because `Array.prototype.pop` ignores its
  argument, so tasks already queued are always popped newest-first. Every
  insertion arms its own timer. The events come out in that order too
  when each fetch settles before the next timer fires, which is the
  schedule the model's atomic step describes. When several timers fire
  while fetches are still pending, each step is suspended at
  `await child.promise` (index.js:228), and the events follow the order in
  which the fetches settle.
  - `DrainIsReverse` proves the reverse order for the function `Drain`.
  - `DrainAll` runs `ProcessQueue` on the class until the queue is empty. It
    proves the emitted events are those of the reversed queue.
  - `ThreeInsertions` queues A, B, C, with C's fetch failing, and runs the
    steps one after another. It processes C, B, A, so the events are for B
    and then A.
- **`onopen` is never wrapped.** Both scripts store the open wrapper in a
  new `orig_onopen` property (scripts/profile.js:39, patch.js:36), so the
  socket's `onopen` keeps its old value. `InstallHooks` states both facts.
- **A step can fire on an empty queue.** Every step that finds a task
  arms another timer while tasks remain, whether its fetch succeeded or
  failed (the `finally` at index.js:238-240). So more timers can be armed
  than there are tasks. A timer that fires on an empty queue:
  1. pops `undefined`;
  2. throws in `child.promise`;
  3. throws again in the catch block's `child.nodeId`;
  4. runs `_next`;
  5. rejects its promise.

  Nothing handles that promise, because the `setTimeout` callback discards
  it. The rejection is therefore unhandled, and from Node 15 on an
  unhandled rejection ends the process by default. `ProcessQueue` models
  this path as the outcome `Rejected`; `ThreeInsertions` reaches it.
  `DrainAll` consumes one more step than it arms, so `old(pendingSteps) - 1`
  steps stay armed. After n insertions in a row, when each fetch settles
  before the next timer fires, n - 1 timers fire on the empty queue, and
  each is `Rejected`. When all n timers fire before any fetch settles,
  each pops a task, each `finally` finds the queue empty and arms nothing,
  and no step fires on an empty queue.
- **A wrapper around a missing callback throws.** The saved callbacks are
  read without a check (scripts/profile.js:19-22, patch.js:17, 23, 29). A
  null `onerror` is simply ignored by the socket before hooking. After
  hooking, every error event writes its `websocket_error` line and then
  throws a TypeError at `orig_onerror(err)` (scripts/profile.js:31,
  patch.js:26). `HookAroundNonFunctionThrows` and `WrappedNonFunctionThrows`
  state this.

## Model

| member | source | states |
|---|---|---|
| JsValues.TypeOf | scripts/profile.js:7 | `typeof` is "object" exactly for null, arrays and objects, and "function" exactly for functions |
| JsValues.GetProperty | scripts/profile.js:46-47 | property access throws exactly on undefined and null; on an object it yields the object's lookup of the name |
| JsValues.Lookup | scripts/profile.js:46-47 | the value of the first property with that name; undefined when there is none |
| JsValues.ToJson | scripts/profile.js:12 | `JSON.stringify` without a replacer is undefined exactly for undefined and functions; it keeps an array's length and never lengthens an object |
| JsValues.EscapeChar | scripts/profile.js:12 | a character is written as itself exactly when it is neither a quote, a backslash nor a control character; otherwise it gets a backslash escape |
| JsValues.PlainQuote | scripts/profile.js:12-15 | a string with nothing to escape is serialised as itself between quotes |
| SideChannel.Replacer | scripts/profile.js:5-9 | the result is the value or undefined; at the root (empty key) it is the value; it differs from the value exactly when the key is non-empty and `typeof` is "object"; patch.js:3-7 defines the same function as `__patch_replacer` |
| SideChannel.Stringify | scripts/profile.js:49-51 | a value the replacer maps to undefined serialises to nothing |
| SideChannel.StringifiedText | scripts/profile.js:49-51 | a settings text is either undefined or a string; it is undefined exactly when the value is undefined or a function; otherwise it is the rendered filtered JSON |
| SideChannel.StringifyNonObject | scripts/profile.js:5-9 | below the root, a value that is not object-typed serialises exactly as it does without a replacer |
| SideChannel.StringifyPropsDropsObjects | scripts/profile.js:5-9 | with non-empty names, the filtered members are the plain members of the non-object properties alone |
| SideChannel.StringifyObjectKeepsTopLevel | scripts/profile.js:49-51 | a settings object serialised with the replacer equals the object of its top-level non-object fields serialised without one |
| SideChannel.StringifyPropsAreScalar | scripts/profile.js:5-9 | every member that survives below the root is a scalar: no nested object or array reaches the text |
| SideChannel.StringifyItemsNullsObjects | scripts/profile.js:5-9 | each object-typed array element becomes null; the others serialise as without a replacer |
| SideChannel.EmptyKeyKeepsNestedObject | scripts/profile.js:6 | `!key` also holds for an empty property name below the root, so any object stored there is kept and its own properties are filtered one level down |
| SideChannel.DefaultNull | scripts/profile.js:11 | `payload = null` replaces undefined by null and keeps any other payload |
| SideChannel.ReplyLine | scripts/profile.js:11-16 | a reply line starts with the prefix and has text after it |
| SideChannel.MessageToJson | scripts/profile.js:12-15 | `{type, payload}` serialises to the `type` member followed by `payload`, which is left out only when it is a function |
| SideChannel.ReplyLineFormat | scripts/profile.js:3-16 | the line is exactly the prefix, `{"type":`, the quoted type, `,"payload":` with the payload's JSON (nothing for a function payload), then `}` |
| SideChannel.ReplyWithoutPayload | scripts/profile.js:11-16 | a reply without payload writes `"payload":null` |
| PageModel.DebugLinesAppend | scripts/profile.js:12 | the console lines of two step sequences in a row are the lines of the first followed by those of the second |
| PageModel.PageEffectsAppend | scripts/profile.js:24-37 | the same holds for the steps other than console lines |
| PageModel.Call | scripts/profile.js:24-42 | calling something that is not a function is a single TypeError |
| PageModel.WrapNotifiesThenForwards | scripts/profile.js:24-37 | a message, error or close wrapper writes its notification with the event as payload, then calls the saved original with the same event |
| PageModel.WrapOpenNotifiesThenCalls | scripts/profile.js:39-42 | the open wrapper writes `websocket_open` with a null payload, then calls the old `onopen` without argument |
| PageModel.Unwrapped | scripts/profile.js:24-37 | peeling off the forwarding wrappers leaves a value that is not one |
| PageModel.WrappersAreObservational | scripts/profile.js:24-37 | however many wrappers surround a callback, the page sees exactly what the innermost value does when called; when that value is a function, the wrappers only add console lines |
| PageModel.HookAroundNonFunctionThrows | scripts/profile.js:26-31 | a wrapper around a saved value that is not a function writes its notification and then throws |
| PageModel.WrappedNonFunctionThrows | patch.js:16-33 | however many wrappers surround a value that is not a function, every call throws and the page sees nothing but the throw |
| PageModel.WrappedCallPrefix | patch.js:16-33 | each wrapper's notification comes before the callback runs, outermost first; what follows them is the bare callback's steps |
| PageModel.InstallHooks | scripts/profile.js:18-43 | `onmessage`, `onerror` and `onclose` become wrappers around their old values, `onopen` is unchanged, `orig_onopen` holds the open wrapper, and no console line is written; patch.js:16-40 installs the same hooks in the same order, with the window's prefix |
| PageModel.InitIsTheOnlyLine | scripts/profile.js:57 | after the hooks, the `init` reply is the one console line the script has added |
| PageModel.Reply | scripts/profile.js:11-16 | a reply adds exactly one console line, the reply line, and nothing else; `__patch_reply` (patch.js:9-14) does the same with the prefix global |
| ProfileScript.Snapshot.ToValue | scripts/profile.js:48-54 | the snapshot is an object with five properties |
| ProfileScript.GetSettings | scripts/profile.js:45-55 | it throws exactly when the settings or their `handler` are undefined or null; otherwise the snapshot carries the filtered handler, chat and initializer settings, the token and whether there is a socket |
| ProfileScript.SnapshotKeys | scripts/profile.js:48-54 | the snapshot's keys are `settings`, `chatSettings`, `initializerSettings`, `csrftoken`, `hasWebsocket`, in that order |
| ProfileScript.SnapshotSettingsAreTopLevel | scripts/profile.js:46-49 | the `settings` text holds only the handler's top-level non-object fields |
| ProfileScript.DisposePlayer | scripts/profile.js:59-67 | `src` is cleared, then `pause` and `dispose` run in that order; afterwards `pause`, `play` and `src` return undefined and `currentTime` is a clock; a call that throws ends the block there |
| ProfileScript.InitThenDispose | scripts/profile.js:57-67 | once the snapshot is built, exactly one `init` line, then the disposal only with a player; the outcome is a TypeError exactly when `pause` or `dispose` throws, and the player fields end as the disposal leaves them |
| ProfileScript.Run | scripts/profile.js:1-69 | no handler is a TypeError before anything happens; the trace is the hooks (only with a socket), then exactly one `init` line, then the disposal (only with a player); without a socket no socket field changes; a throw in `getSettings` stops before `init` and leaves the player alone; `dispose` is never reassigned; after a disposal that did not throw, `pause`, `play` and `src` return undefined and `currentTime` is a clock, and after one that threw, `src` is `''` and the other fields are kept; the patch globals are unchanged |
| PatchScript.InitPayload.ToValue | patch.js:42-47 | the `init` payload is an object with four properties |
| PatchScript.InitPayloadOf | patch.js:42-47 | it throws exactly when `window.defchat_settings` is undefined or null; otherwise it carries the filtered handler and chat settings, the token and whether there is a socket |
| PatchScript.InitPayloadKeys | patch.js:42-47 | the payload's keys are exactly `settings`, `chatSettings`, `csrftoken`, `hasWebsocket`; `initializerSettings` is not among them |
| PatchScript.Run | patch.js:1-49 | the three globals are defined first; no `ws_handler` is a ReferenceError; the trace is the hooks (only with a socket) then exactly one `init` line; the completion value is `ws_handler.ws_socket` |
| PatchScript.WrapperUsesWindowPrefix | patch.js:16-21 | a wrapper from the global patch writes with the prefix the window holds when the event fires |
| Browser.Emission | index.js:227-237 | a task yields one `child_inserted` event, with its three ids and its HTML, exactly when its fetch succeeded |
| Browser.ProfileUrl | index.js:118-120 | the address is the server, `/`, the username and `/` |
| Browser.ProfileUrlInjective | index.js:118-120 | different usernames give different addresses on the same server |
| Browser.Drain | index.js:225 | draining a queue delivers exactly its tasks, each as often as it is queued (same multiset) |
| Browser.DrainAt | index.js:225 | the `i`-th delivery is the task `i` places from the end of the queue |
| Browser.DrainStep | index.js:225 | while a queue drains, the next task popped is the last one left; it joins the end of the reversed tasks delivered so far, and the queue loses it |
| Browser.Emissions | index.js:227-237 | no more events than tasks; with `EmissionsAppend`, each task contributes exactly its `Emission` (at most one event) |
| Browser.EmissionsAppend | index.js:227-237 | processing one more task appends that task's event, if any, to the events so far |
| Browser.ReverseAppend | index.js:225 | appending a task puts it at the front of the reverse order |
| Browser.DrainIsReverse | index.js:225 | tasks queued together are delivered in the reverse of their insertion order |
| Browser.NewestFirst | index.js:225 | the newest task is delivered first and the oldest last |
| Browser.ChaturbateBrowser.constructor | index.js:21-29 | defaults to `https://chaturbate.com` and port 9222; no handles, no document, an empty queue |
| Browser.ChaturbateBrowser.Start | index.js:94-97 | `start` stores the launched process and the debugger connection |
| Browser.ChaturbateBrowser.Stop | index.js:160-175 | from any state, no handles, no document and an empty queue afterwards; a close only when a connection was held and a kill only when a process was held, each once; it never throws |
| Browser.ChaturbateBrowser.Navigate | index.js:116-121 | with a connection, it requests `server/username/` and changes nothing else; without one it throws |
| Browser.ChaturbateBrowser.Next | index.js:213-217 | arms one step exactly when the queue is non-empty; nothing else changes |
| Browser.ChaturbateBrowser.OnChildInserted | index.js:197-208 | with a connection, it requests the child's HTML, appends exactly one task with the notification's three ids at the tail, and arms a step; without one it throws before queueing |
| Browser.DrainAll | index.js:213-241 | with the invariant holding, running the armed steps until the queue is empty emits the events of the reversed queue, keeps the handles and the document, and consumes one more step than it arms when the queue was not empty, so `old(pendingSteps) - 1` steps stay armed |
| Browser.ChaturbateBrowser.ProcessQueue | index.js:222-241 | on a non-empty queue it removes exactly the last task and emits its event only when the fetch succeeded; it then arms a step when tasks remain; on an empty queue it is rejected and changes nothing but the timer count; the invariant is kept |

## Left out

- `_launchChrome` and its flag list (index.js:36-87): launching the process is an external collaborator. Its handle is a parameter of `Start`.
- Most of `start` (index.js:92-109) is not modelled: connecting, enabling the domains and registering the two listeners are DevTools protocol traffic. Only the two handle assignments are modelled.
- `_onPageLoad`, `querySelector` and `querySelectorAll` (index.js:129-155, 180-190) are thin asynchronous wrappers over the DevTools protocol client. `documentNode` is only ever cleared in the model.
- Timing and concurrency are abstracted:
  - Timer delays are not modelled, only the count of armed timers.
  - `_processQueue` runs as one atomic step. In the code, `await child.promise` (index.js:228) lets other notifications and other `_processQueue` steps run between a pop and its emission; then the events follow the order in which the fetches settle, and the re-arm in `finally` sees the queue as those other steps left it. Only the pop order is the same under every schedule.
- Browser.ChaturbateBrowser.OnChildInserted: a notification without `node` (which would throw on `params.node.nodeId`) is not modelled, because the node ids are given as plain integers.
- Browser.ChaturbateBrowser.ProcessQueue: a fetch result whose `outerHTML` is missing is not modelled; a successful fetch always carries a string.
- `debug(...)` logging is not modelled. The console line of a failed fetch is therefore not in the log.
- `$.cookie('csrftoken')` is an opaque value passed in.
- `player.currentTime` is only recorded as a clock function, because its value is floating-point `Date` arithmetic.
- JavaScript strings can hold lone surrogates, which `JSON.stringify` writes as `\uXXXX` escapes. A Dafny `char` is a Unicode scalar value, so such strings are not modelled.
- Numbers are unbounded integers. NaN, infinities and fractional values, and their JSON forms, are not modelled. Neither is the loss of precision above 2^53, nor the exponent form `String` and `JSON.stringify` use from 10^21 on.
- Objects are lists of own enumerable properties with distinct keys. The following are not modelled: `toJSON`, getters, symbols, cyclic values (on which `JSON.stringify` throws) and the JSON text of host objects such as socket events.
- `this` binding is not modelled: the wrappers call the saved callbacks as plain functions, as the code does, and a native callback is opaque.
- A page function can only be observed as having run, with its argument; what it does is not modelled. A wrapper can be replaced later by page code; that is not modelled.
- scripts/bitcoin.js: DOM clicking and scraping of page text.
- Host-side prefix filtering and decoding of the side-channel lines, retries and argument normalisation are not part of the modelled files.
