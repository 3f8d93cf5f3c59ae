# StyledSwitch: change-detection bridge

A model of `StyledSwitch`. This is a host-embedded toggle control. The host calls it
again and again with full snapshots of its properties. The control keeps one "last
published" cache for each of four aspects:

- the bound value;
- the disabled flag;
- the visible flag;
- a style bundle: six style references plus a resolved width and height.

On each host update it compares the snapshot with each cache. A notification goes out
on an aspect's notifier only when that aspect differs. The width and the height each
come from a three-tier fallback: the host allocation, then the container's client
size, then the parent's client size.

Files:

- `types.dfy` (module `Types`): the context fields the control reads, the container's
  size, the style bundle, the notifications and the host signals.
- `geometry.dfy` (module `Geometry`): resolving one dimension, proved equal to a
  reference "first positive candidate" definition; resolving both dimensions; the
  decision at mount whether to ask for another render.
- `bridge.dfy` (module `Bridge`): the caches as a value, written as pure functions.
  It defines the per-aspect check (`Observe`), the eight-field style comparison, and
  one whole update (`UpdateStep`). `Replay` runs sequences of host updates and user
  edits. The lemmas cover publication, ordering, idempotence and the output value.
- `styled_switch.dfy` (module `Control`): the class `StyledSwitch`. Its fields are
  the four caches, updated in place. `published` is an append-only log that stands
  for the four notifiers. `signals` logs the calls back into the host
  (`requestRender`, `notifyOutputChanged`). Each method's postcondition ties its new
  state to the functions in `Bridge`.

The DOM is read when the control is mounted and on every update. Those reads
(`container.clientWidth`/`clientHeight` and `parentElement?.clientWidth`/`clientHeight`)
are passed in as a `Container` value. The TypeScript constructor is empty, and `init`
is the host's first call, so the two together are the Dafny constructor `Init`.
Before `init` the source's `updateView` would throw, because `_container` and
`_styles` are still undefined.

Two points about the order of events:

- Within one update the checks run in this order: styles, disabled, visible, value
  (`StyledSwitch/index.ts:126-129`).
- `init` seeds all four caches from the first context (`StyledSwitch/index.ts:63-95`).
  A first `updateView` whose snapshot matches the mount context therefore publishes
  nothing (`Bridge.MountIsSettled`).

## Model

| member | source | states |
|---|---|---|
| Geometry.ResolveDim | StyledSwitch/index.ts:74-79 | The result is the allocation, the client size or the parent's size. It is positive exactly when one of the three tiers is positive. Whenever it is not the parent's size, it is a positive number. |
| Geometry.Positive | StyledSwitch/index.ts:113 | The `> 0` test on a size that may be `undefined`, with `undefined` read as 0, holds exactly when the size is defined and strictly positive. |
| Geometry.ResolveDimIsFirstPositive | StyledSwitch/index.ts:74-85 | For every input, the three-tier resolution equals the first strictly positive candidate among allocation and client size, falling back to the parent's size. |
| Geometry.DimensionsIndependent | StyledSwitch/index.ts:176-187 | The width depends only on the width inputs, and the height only on the height inputs. |
| Geometry.ResolveSize | StyledSwitch/index.ts:74-85 | Each dimension equals the first strictly positive candidate among allocation and client size, falling back to the parent's size. A dimension is undefined exactly when both candidates are non-positive and there is no parent element. |
| Geometry.NeedsRender | StyledSwitch/index.ts:113-118 | No render is requested exactly when both dimensions are defined and strictly positive. |
| Geometry.NeedsRenderIffUnresolved | StyledSwitch/index.ts:113-118 | A re-render is requested exactly when, for width or for height, none of the three sources gives a positive size. |
| Bridge.BuildStyles | StyledSwitch/index.ts:86-95 | The six style references pass through unchanged. Each dimension is positive exactly when one of its three sources is, and undefined exactly when none exists. |
| Bridge.Snapshot | StyledSwitch/index.ts:63-95 | The value and both flags are seeded from the raw context. The style cache equals the built bundle, whose size is undefined only when nothing resolves it. |
| Bridge.SameStyles | StyledSwitch/index.ts:188-197 | The eight-field `===` comparison holds if and only if the two bundles are equal, so any single differing field counts as a change. |
| Bridge.Observe | StyledSwitch/index.ts:151-173 | A flag or value check reports a change exactly when the incoming value differs from the cache. Either way the cache ends equal to the incoming value. |
| Bridge.UpdateStep | StyledSwitch/index.ts:125-130 | After an update, all four caches equal the freshly built snapshot, including the resolved size. |
| Bridge.UpdateStepPublishesChanged | StyledSwitch/index.ts:151-211 | An update publishes on an aspect's notifier if and only if that aspect's cache differed from the snapshot. |
| Bridge.UpdateStepOrdered | StyledSwitch/index.ts:126-129 | An update publishes at most one notification per aspect, in the order styles, disabled, visible, value. Each notification carries the new cache value of its aspect. |
| Bridge.UpdateStepQuietIffSettled | StyledSwitch/index.ts:151-199 | An update publishes nothing exactly when every cache already equals the snapshot. |
| Bridge.UpdateIdempotent | StyledSwitch/index.ts:125-130 | A second update with the same context and container size publishes nothing and leaves the caches as they are. |
| Bridge.MountIsSettled | StyledSwitch/index.ts:63-95 | Right after mounting, an update with the mount context and the same container size publishes nothing and changes no cache. |
| Bridge.SettledUpdatesAreQuiet | StyledSwitch/index.ts:151-173 | Once the caches equal a snapshot, any number of further updates with that snapshot publish nothing. |
| Bridge.RepeatedUpdatePublishesOnce | StyledSwitch/index.ts:125-130 | n >= 1 identical updates publish exactly what the first one publishes, and leave the caches equal to the snapshot. |
| Bridge.ValueCacheIsLastWritten | StyledSwitch/index.ts:136-140 | After any sequence of host updates and user edits, the value cache that `getOutputs` returns is the value written by the last operation, or the mount value if there was none. |
| Bridge.Apply | StyledSwitch/index.ts:57-60 | After any operation the value cache holds the value that operation wrote. A user edit publishes nothing and changes no other cache. |
| Bridge.EditThenMatchingUpdate | StyledSwitch/index.ts:57-60 | A user edit publishes nothing. A later update whose raw value equals the edit publishes nothing on the value notifier, and the value cache keeps the edit. |
| Bridge.ToggleEndToEnd | StyledSwitch/index.ts:167-173 | The control is mounted with `false` and then updated twice with `true`. Exactly one notification is published in total: `true` on the value notifier. The cache holds `true`. |
| Control.StyledSwitch.Init | StyledSwitch/index.ts:50-119 | Mounting seeds all four caches from the first snapshot and publishes nothing. It asks for a render once exactly when not both dimensions resolve to a positive size. |
| Control.StyledSwitch.UpdateView | StyledSwitch/index.ts:125-130 | The caches become the snapshot. The log grows by exactly what `UpdateStep` publishes for the old caches. The host signals are left unchanged. |
| Control.StyledSwitch.GetOutputs | StyledSwitch/index.ts:136-140 | Returns the value cache as it is, with no diffing and no state change. |
| Control.StyledSwitch.Destroy | StyledSwitch/index.ts:146-149 | Marks the control as torn down. Nothing else changes. |
| Control.StyledSwitch.OnValueChanged | StyledSwitch/index.ts:57-60 | Sets the value cache and appends one output-changed signal. The notification log is left untouched. |
| Control.StyledSwitch.CheckDisabled | StyledSwitch/index.ts:151-157 | If the flag equals the cache, nothing changes. Otherwise the cache takes the flag and exactly one disabled notification carrying it is appended. |
| Control.StyledSwitch.CheckVisible | StyledSwitch/index.ts:159-165 | The same as CheckDisabled, for the visible flag and its notifier. |
| Control.StyledSwitch.CheckSelection | StyledSwitch/index.ts:167-173 | The same as CheckDisabled, for the bound value and the value notifier. |
| Control.StyledSwitch.CheckStyles | StyledSwitch/index.ts:175-211 | The cache becomes the freshly built bundle. One notification carrying that bundle is appended if and only if any of the eight fields differed. |
| Control.ToggleScenario | StyledSwitch/index.ts:50-140 | Runs the real class through mount with `false` and two updates with `true`. The log holds only a value notification for `true`, and `getOutputs` gives `true`. |

## Left out

- React mounting and rendering (`createRoot`, `createElement(App, …)`, `render`, and `unmount` in `destroy`) are not modelled. They belong to a foreign UI library. `destroy` is modelled only as the `mounted` flag.
- `showBanner`, `console.log` and `trackContainerResize` are left out. They are host or console side effects with no logic to state.
- The notifier module (`./notifier`) is not part of this model. Each `notify` call is one entry appended to `published`. Subscriber dispatch, unsubscription and handler errors are not modelled.
- The DOM is not modelled. Container and parent client sizes are inputs, and a missing `parentElement` is `None`.
- The `state` argument of `init` is not modelled, because the control never reads it.
- Sizes are modelled as integers. JavaScript number semantics (fractional pixel sizes, `NaN`, where `NaN !== NaN`) are not captured.
- The defensive copies `{...this._styles}` handed to the view are not modelled. Style bundles are immutable values in this model, so aliasing cannot be expressed, and every published bundle is trivially independent of the cache.
- `SwitchValue` is defined in `./notifier`, which is not part of this model. It is modelled as an optional boolean, where `None` stands for `undefined`.
- The host's scheduling, the re-render it performs after `requestRender`, and re-entrant calls from view handlers are not modelled. The host is assumed never to make re-entrant calls.
