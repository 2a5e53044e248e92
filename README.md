# RWindows: a verified model of the window-manager core

RWindows is a small React library of draggable windows that live inside a
*realm*. This project models the state core of the library in Dafny:

- **one window** (`src/RWindow.js`):
  - the `defaults` configuration;
  - the merge `spreadToState`, which overrides top-level keys and merges the
    four nested style/drag groups leaf by leaf;
  - the window reducer: `toggle_isMinimized`, `get_state`, `update_state`,
    `set_isHidden`, and a throw on any other type;
  - the size effect, which forces preset geometry, and the unused
    `syncSizeToWh`;
  - the controller object (`api`): a subscriber list; `close`, which notifies
    every subscriber with `null` and then asks the realm to remove the
    window; the effect that notifies every subscriber of each new state;
  - the values a window derives for rendering: z-index, height, display and
    drag-handle selector.
- **the realm** (`src/RWindowRealm.js`):
  - its reducer over `windowPool`, `windowApis`, `focused` and `closeCount`;
  - `api.add`, which assigns the id;
  - the `getJsx` and `getApi` first-match lookups.
- **the titlebar** (`src/components/Titlebar.js`): which buttons are shown,
  their glyphs, and whether a close click closes or only hides the window.

## Files

- `wrappers.dfy` is module `Wrappers`: `Option` (JavaScript's `null`) and
  `Result` (a thrown error).
- `js_values.dfy` is module `JsValues`. It holds the fragment of JavaScript
  the code relies on:
  - a `Value` datatype;
  - truthiness, property reads and object spread;
  - string conversion.
- `js_arrays.dfy` is module `JsArrays`, holding the two array idioms that the
  realm reducer and the window's `unsubFromState` use:
  - `xs.map(key).indexOf(k)`;
  - `xs.filter(e => key(e) !== k)`.
- `rwindow_realm.dfy` is module `RWindowRealm`. The realm reducer is a pure
  function `Reduce` that returns `Ok(state)` or `Err(error)`.
- `titlebar.dfy` is module `Titlebar`: the button rules, as pure functions of
  the titlebar props.
- `rwindow.dfy` is module `RWindow`, which is mixed:
  - **pure part:** `Defaults`, `SpreadToState`, the window reducer `Reduce`,
    `SizeEffect` and `SyncSizeToWh`;
  - **class `Window`:** the mounted controller. Its fields are the current
    `state`, the `subscribers` list and `calls`, a log of every call the
    window makes to a caller-supplied function.
  - **React effects, run in sequence:**
    - the notify effect runs after every committed state;
    - the size effect runs after a commit that changed `size`;
    - `get_state` returns the same object, so it re-renders nothing.
  - `Run` and `After` state what one dispatch does. `Window.Dispatch` is
    proved against them.

### How the code differs from a plain reading of its documentation

- `updateState(null)` (or any falsy partial) does not leave a window
  unchanged. `spreadToState` returns `defaults`, so the window is reset
  (`UpdateNullResets`). The partial that changes nothing is `{}`
  (`EmptyAndAbsentPartials`).
- Setting a preset geometry does not update `size`. `syncSizeToWh` is defined
  but never called, and the size effect runs only when `size` changes. A
  default window given 800 by 600 therefore keeps `size == "md"`
  (`GeometryUpdateKeepsSize`).
- `stateSubscribers` is a dependency of the notify effect. Subscribing or
  unsubscribing therefore re-runs it, and every remaining subscriber is called
  with the current state at once (`Window.SubscribeToState`,
  `Window.UnsubFromState`).
- The comment at `src/RWindowRealm.js:16-17` says windows closed through their
  own api are not counted. However, `close()` calls the realm's `remove`,
  which increments `closeCount` (`Window.Perform`, `RWindowRealm.RemovePresent`).
- A window created with a `width` and `height` but no `size` does not keep
  them. The merged state has `size == "md"`, so the size effect's first run
  overrides them with 600 by 400 (`InitialState`, `StateSizeWins`).
- Toggling twice restores the state only when `isMinimized` held a boolean.
  Otherwise it becomes `!!isMinimized` (`ToggleTwice`).

## Model

| member | source | states |
|---|---|---|
| JsArrays.IndexOf | src/RWindowRealm.js:39 | -1 exactly when no record has the key; otherwise the position of the first record that has it |
| JsArrays.Without | src/RWindowRealm.js:43 | no record with the key remains; every other record is kept; the list is returned unchanged when no record has the key |
| JsArrays.WithoutConcat | src/RWindowRealm.js:43 | filtering distributes over concatenation, so survivors keep their relative order |
| JsArrays.KeepsOrderAround | src/RWindowRealm.js:43 | a surviving record stays between the survivors before it and those after it |
| RWindowRealm.Initial | src/RWindowRealm.js:6-19 | empty pool and api table, `focused` null, `closeCount` 0 |
| RWindowRealm.Run | src/RWindowRealm.js:21-64 | no actions leave the realm as it is; one action is one reducer call; a first action that throws ends the run with its error |
| RWindowRealm.RunAppend | src/RWindowRealm.js:21-64 | dispatching `a + b` is dispatching `a`, then `b` from the state it reaches; a throw in `a` ends the run |
| RWindowRealm.Reduce | src/RWindowRealm.js:21-64 | throws exactly for an unknown type or a null/undefined payload (destructured at line 22), with the matching error; `closeCount` changes only on "remove", and only by one |
| RWindowRealm.AddAppendsOne | src/RWindowRealm.js:27-34 | "add" appends exactly one record at the end; its key and `options.id` are the id, overriding any `id` in options; other options are copied; apis, focus and count unchanged |
| RWindowRealm.RemoveAbsentIsNoOp | src/RWindowRealm.js:39-40 | "remove" of an id no record has returns the same state |
| RWindowRealm.RemovePresent | src/RWindowRealm.js:41-45 | "remove" of a present id drops every record with that key, keeps the others in order, adds exactly one to `closeCount`, and leaves apis and focus alone |
| RWindowRealm.SetFocusedIsUnconditional | src/RWindowRealm.js:48 | "set_focused" stores its payload whether or not a window has that id |
| RWindowRealm.AddApiAppends | src/RWindowRealm.js:51-53 | "add_api" appends `{id, api}` even for a registered id; nothing else changes |
| RWindowRealm.RemoveApiFilters | src/RWindowRealm.js:56-59 | "remove_api" keeps the state for an absent id; otherwise it drops every entry with the id and keeps the rest |
| RWindowRealm.CloseCountMonotone | src/RWindowRealm.js:21-64 | over any run of actions `closeCount` never decreases and grows by at most one per action |
| RWindowRealm.ApiAdd | src/RWindowRealm.js:86-90 | a truthy requested id is used as given, otherwise "KEY-" + uuid; the returned id is the one dispatched |
| RWindowRealm.GetJsx | src/RWindowRealm.js:99-103 | null exactly when no pool record has the key; otherwise the first record with it |
| RWindowRealm.GetApi | src/RWindowRealm.js:106-110 | null exactly when no entry has the id; otherwise the first `{id, api}` wrapper with it |
| RWindowRealm.FreshAddIsFound | src/RWindowRealm.js:86-103 | after `add` with a generated id the uuid supply never gave out before, `getJsx` of the returned id finds the new window |
| RWindowRealm.DuplicateAddIsShadowed | src/RWindowRealm.js:99-103 | adding under an id already in the pool appends a duplicate, but `getJsx` still returns the earlier record |
| RWindowRealm.AddAddRemoveScenario | src/RWindowRealm.js:86-93 | two adds with generated ids, then removal of the second: the pool holds only the first and one close is counted |
| Titlebar.MinimizeGlyph | src/components/Titlebar.js:56 | "∨" exactly when `isMinimized` is truthy, "∧" otherwise |
| Titlebar.CloseClick | src/components/Titlebar.js:61-64 | exactly one of close and `setIsHidden(true)`; close exactly when `isCloseable` is truthy |
| Titlebar.Buttons | src/components/Titlebar.js:53-65 | a minimize button exactly when `hasMinimizeButton` is truthy, with the glyph and `toggleIsMinimized`; a close button ("X") exactly when `hasCloseButton` is truthy, with the close-click decision; minimize comes first |
| Titlebar.TitleClassName | src/components/Titlebar.js:38 | the title element's class is its `handleId` prop |
| RWindow.Defaults | src/RWindow.js:8-79 | the four groups are objects; size "md" with 600 by 400 |
| RWindow.DefaultWindowIsOpen | src/RWindow.js:11-48 | a default window is shown, expanded, closeable, has a titlebar with both buttons, and is dragged by its titlebar |
| RWindow.SpreadToState | src/RWindow.js:84-85 | a falsy state or partial gives `defaults`; the result's groups are always objects |
| RWindow.MergeIsKeyWise | src/RWindow.js:87-92 | every top-level key of the partial takes its value; every other key keeps the old one; inside each group a leaf takes the partial's value, and a leaf missing from the partial's group survives |
| RWindow.MergeWithoutGroups | src/RWindow.js:87-93 | a partial that names no group is a plain top-level override |
| RWindow.EmptyAndAbsentPartials | src/RWindow.js:84-85 | merging `{}` leaves the state as it is; merging `null` or `undefined` gives `defaults` |
| RWindow.Reduce | src/RWindow.js:96-119 | throws exactly on an unknown type, with "Unknown dispatch type: " + type; `get_state` returns the same state and calls the callback once with it; toggle flips only `isMinimized`; `set_isHidden` sets only `isHidden`; groups stay objects |
| RWindow.ToggleTwice | src/RWindow.js:99-100 | toggling twice yields the state with `isMinimized` as `!!isMinimized`; this is the original state when it held a boolean |
| RWindow.SizeEffect | src/RWindow.js:209-215 | when the effect dispatches, its partial is an object that names no nested group |
| RWindow.SyncSizeToWh | src/RWindow.js:220-227 | returns an update only for a state with an exact preset geometry, and that update sets the matching preset's name; otherwise none |
| RWindow.SyncSizeToWhFindsEveryPreset | src/RWindow.js:220-227 | every exact preset geometry maps back to its own preset name |
| RWindow.SizeEffectOverlays | src/RWindow.js:211-214 | applying the effect's partial through `updateState` is a plain top-level override |
| RWindow.PresetOverlay | src/RWindow.js:211-213 | overlaying a preset's update gives that preset's geometry, keeps the size, and changes nothing but width and height |
| RWindow.CustomOverlay | src/RWindow.js:214 | overlaying `{size: "custom"}` changes only `size` |
| RWindow.AfterSizeEffect | src/RWindow.js:205-218 | returns the state unchanged when the effect does not dispatch; the groups stay objects |
| RWindow.PresetForcesGeometry | src/RWindow.js:209-213 | sm/md/lg force 400×200, 600×400 or 800×600, keep the size and change nothing else; `syncSizeToWh` maps the result back to the same size |
| RWindow.NonPresetSizes | src/RWindow.js:209-215 | "custom" is left alone (no dispatch); any other non-preset size becomes "custom"; the geometry is untouched in both cases |
| RWindow.SizeEffectSettles | src/RWindow.js:205-218 | after one run the size is unchanged or is "custom", so the effect dispatches nothing more |
| RWindow.Run | src/RWindow.js:197-218 | a dispatch throws exactly for an unknown type; otherwise at most two states are committed, and none for `get_state` |
| RWindow.AfterKeepsGroups | src/RWindow.js:84-94 | the nested groups stay objects through every dispatch |
| RWindow.GetStateReadsCurrentState | src/RWindow.js:104-106 | `get_state` hands the current state to the callback, commits nothing and leaves the state as it was |
| RWindow.UnknownActionThrows | src/RWindow.js:117 | an unknown type throws "Unknown dispatch type: " + type and leaves the state |
| RWindow.ToggleAndHideCommitOnce | src/RWindow.js:218 | toggle and `set_isHidden` leave `size` alone, so each commits exactly one state |
| RWindow.SettledCases | src/RWindow.js:205-218 | the size effect adds a commit exactly when `size` changed and the new size is not "custom"; the state then ends where the effect leaves it |
| RWindow.AfterIsSettled | src/RWindow.js:197-218 | a committing dispatch ends where the reducer's state settles after the size effect |
| RWindow.RunCommits | src/RWindow.js:197-218 | a committing dispatch invokes no callback and commits the reducer's state, then the size effect's commit when there is one |
| RWindow.UpdateToPresetForcesGeometry | src/RWindow.js:209-213 | an update that changes `size` to a preset ends with that size and exactly its geometry |
| RWindow.UpdateToOtherSizeBecomesCustom | src/RWindow.js:214 | an update that changes `size` to a non-preset ends with "custom" and the geometry the update left |
| RWindow.SettledToCustom | src/RWindow.js:210-214 | a commit into a non-preset size settles on "custom" with its geometry untouched |
| RWindow.GeometryOverlay | src/RWindow.js:211-213 | a `{width, height}` update sets exactly the width and the height |
| RWindow.GeometryOverlayIdempotent | src/RWindow.js:212 | re-applying the geometry a state already has changes nothing |
| RWindow.SettledKeepingSize | src/RWindow.js:218 | a commit that keeps `size` triggers no size effect |
| RWindow.GeometryUpdateKeepsSize | src/RWindow.js:218-227 | a default window given 800×600 reports 800×600 and still size "md": no sync from geometry to size |
| RWindow.UpdateNullResets | src/RWindow.js:85 | `updateState(null)` resets any window to `defaults`, even across a size change |
| RWindow.DefaultsAreSettled | src/RWindow.js:212 | the size effect leaves `defaults` as they are |
| RWindow.InitialState | src/RWindow.js:132 | the state a mounted window settles in, once the size effect's first run has re-rendered it, keeps the groups as objects; options naming a preset size start with that size and its geometry; options without a `size` start "md" at 600 by 400, whatever width and height they give |
| RWindow.StateSizeWins | src/RWindow.js:207-214 | options without a `size`, merged into a state with a preset size, keep that size and end at its geometry |
| RWindow.OptionWithoutSizeKeepsSize | src/RWindow.js:87-88 | options without a `size` keep the size of the state they are merged into |
| RWindow.DefaultSizeApplies | src/RWindow.js:132 | a window created without a `size` starts "md" at 600 by 400 |
| RWindow.LargeWindowStartsLarge | src/RWindow.js:132 | a window created with `size: "lg"` starts at 800 by 600 with size "lg" |
| RWindow.PresetOptionWins | src/RWindow.js:132 | options naming a preset size start the window with that size and its geometry, whatever state they merge into |
| RWindow.OptionSizeWins | src/RWindow.js:88 | a `size` given in the options overrides the one merged into |
| RWindow.NotificationsCallEachOnce | src/RWindow.js:201 | notifying makes one call per subscriber entry, to its function, in list order |
| RWindow.SubscribeDuplicatesUnsubscribeRemovesAll | src/RWindow.js:162-169 | subscribing twice under one id leaves two entries; one unsubscribe removes both; unsubscribing an absent id changes nothing |
| RWindow.TitlebarFor | src/RWindow.js:249-262 | a titlebar is rendered exactly when `hasTitlebar` is truthy |
| RWindow.HandleSelector | src/RWindow.js:233 | the drag handle is a class selector ending in "-" followed by the window's id |
| RWindow.ZIndex | src/RWindow.js:245 | the z-index is 10 exactly for the focused window and 9 for every other |
| RWindow.RenderedHeight | src/RWindow.js:244 | the wrapper's height is `minHeight` while minimized and `height` otherwise |
| RWindow.Display | src/RWindow.js:240 | the wrapper is "none" exactly when `isHidden` is truthy, "flex" otherwise |
| RWindow.HandleSelectsTitle | src/RWindow.js:233 | the drag-handle selector selects the title element, whose class is its `handleId` (`src/components/Titlebar.js:38`), exactly when `handleArea` reads "titlebar" |
| RWindow.FocusedWindowOnTop | src/RWindow.js:245 | after "set_focused" the focused window is at z-index 10 and any other window at 9 |
| RWindow.ToggleFlipsHeightAndGlyph | src/RWindow.js:244 | toggling swaps the rendered height between `height` and `minHeight` and changes the minimize glyph |
| RWindow.UncloseableCloseClickHides | src/components/Titlebar.js:61-64 | a window whose `isCloseable` is falsy answers a close click with `setIsHidden(true)` and is then not displayed |
| RWindow.Window.constructor | src/RWindow.js:132 | a window mounted with options whose `id` is its own id settles in the merged defaults after the size effect's first run, with no subscribers |
| RWindow.MountedSizeIsKnown | src/RWindow.js:207-215 | a mounted window's `size` is "sm", "md", "lg" or "custom", whatever `size` its options give |
| RWindow.SizeStaysKnown | src/RWindow.js:96-119 | no dispatch takes `size` out of "sm", "md", "lg" and "custom" |
| RWindow.SettledSizeIsKnown | src/RWindow.js:207-218 | a commit from a state with a known size settles on a known size: an unchanged size is kept, a changed one is forced to a preset or to "custom" |
| RWindow.Window.NotifySubscribers | src/RWindow.js:201 | the loop calls each subscriber's function once with the argument, in list order |
| RWindow.Window.Dispatch | src/RWindow.js:197-218 | a throw changes nothing; otherwise the state becomes `After`, and the calls are the reducer's callbacks followed by one round of notifications per committed state |
| RWindow.Window.CommitAndSync | src/RWindow.js:197-218 | a committed state is broadcast, and a changed `size` commits and broadcasts the size effect's update |
| RWindow.Window.ToggleIsMinimized | src/RWindow.js:145 | only `isMinimized` changes, to the negation of its truthiness, and each subscriber sees the new state once |
| RWindow.Window.SetIsHidden | src/RWindow.js:148 | `isHidden` becomes the value, nothing else changes, and each subscriber sees the new state once |
| RWindow.Window.UpdateState | src/RWindow.js:172 | the window ends in `After(update_state)`, and subscribers see each committed state |
| RWindow.Window.GetState | src/RWindow.js:175 | the callback receives the current state, which stays as it is |
| RWindow.Window.SetFocused | src/RWindow.js:151 | asks the realm to focus this window's id |
| RWindow.Window.Close | src/RWindow.js:155-158 | every current subscriber is called once with `null`, and then removal of this id is requested |
| RWindow.Window.SubscribeToState | src/RWindow.js:162-164 | the entry is appended even for an id already present; each subscriber then sees the current state |
| RWindow.Window.UnsubFromState | src/RWindow.js:167-169 | every entry with the id is dropped; the remaining subscribers see the current state |
| RWindow.Window.Perform | src/RWindow.js:257-260 | a titlebar command carried out on the window: close goes on to realm "remove"; hide and toggle leave the realm unchanged |
| RWindow.Window.ClickClose | src/components/Titlebar.js:60-64 | a closeable window notifies every subscriber with `null` and asks the realm to remove it, its state unchanged; any other one stays in the realm, only `isHidden` becomes true, it is not displayed, and every subscriber sees the new state |

## Left out

- Rendering is not modelled: the JSX layout, CSS and styled-components
  styling, and `react-draggable`'s drag mechanics. The model keeps only the
  values they consume: z-index, rendered height, display and the handle
  selector.
- Click-to-focus is not modelled: `onMouseDown={api.setFocused}`
  (`src/RWindow.js:234`). A real click on the close button first sets the
  realm's `focused` to the window's id. `Window.ClickClose` and
  `Window.Perform` model the click handler alone, so their
  `realm' == Ok(realm)` leaves out that earlier "set_focused".
- React scheduling is not modelled:
  - dispatches are applied at once, in order; batching, StrictMode double
    rendering and error boundaries are not modelled;
  - `api` closes over the `stateSubscribers` of the render that created it.
    The model reads the current list instead. The mount effect registers the
    first render's `api` with the realm once (`src/RWindow.js:185`, deps `[]`
    at `195`). A caller that reaches a window through the realm's `getApi`
    therefore holds an api whose list is always the empty mount-time one:
    its `subscribeToState` replaces the whole list with one entry (`163`),
    its `unsubFromState` empties the list (`168`), and its `close()` notifies
    no one (`156`). This holds at any time, not only within one tick;
  - React's bail-out is not modelled. When a reducer returns the very object
    it was given, React does not re-render and no subscriber is called. The
    model commits every step except `get_state` and compares no states. A
    window whose state is the `defaults` object itself, given a second
    `updateState(null)`, therefore notifies its subscribers in the model
    (`Window.UpdateState`) but not in the source.
- The mount and unmount effect at `src/RWindow.js:178-195` is not modelled
  (`setFocused`, `addApi`, `removeApi`). The realm's `add_api` and
  `remove_api` themselves are modelled.
- `uuidv4()` is not modelled. It becomes the `uuid` parameter of
  `RWindowRealm.ApiAdd`; freshness is a precondition where a lemma needs it.
- JSX element creation is not modelled. A pool record is the triple (key,
  options with `id`, content); `addApi` and `removeApi` are not stored in it.
- Two JavaScript value features are left out:
  - numbers are integers, so floating point, `NaN` and number-to-key coercion
    are not modelled;
  - a function's string conversion is not its source text.
- JsValues.Spread: spreading a string or an array into index keys is not
  modelled. Such a value contributes no properties.
- Callers' functions are modelled as returning normally and as not acting on
  the window. Each call is only recorded in `calls`. A function that throws,
  or that calls back into the api, is not modelled. This bounds the members
  below.
- RWindow.Reduce: a `get_state` callback that throws at `src/RWindow.js:105`
  makes the reducer throw. The model's `get_state` always reduces.
- RWindow.Window.NotifySubscribers: a subscriber that throws stops the loop at
  `src/RWindow.js:201`, and the later subscribers are not called. The model
  calls every subscriber.
- RWindow.Window.Close: a subscriber that throws on `null` at
  `src/RWindow.js:156` ends `close()` before `realmApi.remove` at `157`. The
  window then stays in the pool. The model always returns the remove request.
- RWindow.Window.Perform: the close command inherits `Window.Close`'s
  limitation. The model always passes the remove request on to the realm.
- RWindow.Window.ClickClose: a closeable window inherits `Window.Close`'s
  limitation. The model always asks the realm to remove it.
- Only a function `get_state` payload is modelled. Any other payload would
  throw a TypeError inside the reducer.
- RWindowRealm.Reduce: a non-string `remove` / `remove_api` payload other than
  `null` or `undefined` is not modelled. Ids are strings, as React element
  keys always are.
- RWindowRealm.ApiAdd: the requested `_id` is a string or null. `api.add`
  accepts any truthy `_id` (`src/RWindowRealm.js:87`). With a number such as
  5, React's key becomes "5" while `options.id` stays 5, so a later `close()`
  calls `remove(5)`, which finds no record (`39`). That mismatch is not
  modelled.
- Object key order is not modelled. A plain object is a map from keys to
  values, so the order in which spread writes keys, and anything that
  enumerates them, is not represented.
- src/content/RWindowEditor.js, src/content/RWindowList.js,
  src/content/RWindowRealmPanel.js and src/index.js are not part of this
  model. They are UI panels and a bootstrap that only call api methods
  modelled here.
