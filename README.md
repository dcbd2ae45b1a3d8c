# Colorbar service model

This project models the colorbar service of a medical-image viewer
(`platform/core/src/services/ColorbarService/ColorbarService.ts`). The service
keeps a per-viewport table, `colorbars`, of colorbar entries. Each entry holds:

- the colorbar object, whose modelled property is `activeColormapName`;
- the container `div` that the service created and appended to the viewport's host element;
- a `needsRefresh` flag.

`addColorbar` (when it returns normally) and `updateActiveColormapForColorbar` always broadcast a
`COLORBAR_STATE_CHANGED` event with the payload `{ viewportId, state }`.
`removeColorbar` broadcasts only when it deletes an entry: an absent id, or a
call that throws, broadcasts nothing. `markForRefresh` never broadcasts.

Layout, one module per concern:

- `js.dfy` (`Js`): the JavaScript semantics the service relies on: untyped
  values, truthiness for `a || b`, `Object.assign` and object spread.
- `dom.dfy` (`DomModel`): the document as a value (the nodes created, plus the
  `parentNode` link of each attached node) and a `Document` class whose
  methods are the DOM calls the service makes.
- `colorbar_style.dfy` (`ColorbarStyle`): the pure part of `addColorbar`. This
  is the container style (the defaults, then at most one of the four position
  presets) and the tick configuration.
- `colorbar_state.dfy` (`ColorbarState`): the service state as a value
  (`World`: table, event log, document), one transition function per mutator,
  the invariant `Valid`, and lemmas stating what each mutator guarantees.
- `colorbar_service.dfy` (`ColorbarService`): the service as a class. Its
  `colorbars` and `events` fields are updated in place. Each mutator is proved
  to reach exactly the state its `ColorbarState` function describes.
- `colorbar_traces.dfy` (`ColorbarTraces`): arbitrary sequences of calls. It
  proves that they keep the invariant, that the toggle agrees with a reference
  definition, that they leave other viewports alone, and how the event log grows.

Modelling choices:

- An option that is left out is `Undefined`, so `options.width || '2.5%'` and
  the other defaults follow JavaScript truthiness. For example, an empty
  string also falls back to the default.
- `options.position in positionStyles` selects a preset only for the strings
  `left`, `right`, `top` and `bottom`. Inherited names such as `toString` also
  pass the `in` test in JavaScript. But the value found is inherited: a
  function, or `Object.prototype` itself for `__proto__`. Such a value has no
  own enumerable properties, so `Object.assign` copies nothing from it and the
  style is the same as with no preset. The model gives exactly that result.
- `removeColorbar` reads `container.parentNode.removeChild`. When the
  container has no parent, this throws a `TypeError` before anything changes.
  The model returns that outcome. `RunNeverThrowsOnRemove` shows it cannot
  happen through the service's own calls to a service that starts empty.
  `RemoveAfterForeignDetachThrows` shows it does happen once other code has
  detached a container.
- The `ViewportColorbar` constructor, passed as `addColorbar`'s last
  argument, is a foreign call. The model does not take it as a parameter: the
  `Colorbar` record of the arguments it receives stands in for the object it
  builds. The host element is a parameter and an opaque identity.
- The global `document` is the `doc` field of the service, fixed when the
  service is constructed, so every call acts on the same document.
- `_broadcastEvent` appends to the `events` log.

## Model

| member | source | states |
|---|---|---|
| `Js.Assign` | platform/core/src/services/ColorbarService/ColorbarService.ts:61-64 | `Object.assign` gives a result whose keys are those of the target and the source together |
| `Js.AssignPrecedence` | platform/core/src/services/ColorbarService/ColorbarService.ts:61-64 | under `Object.assign` the source's value wins for a key both have; other keys keep the target's value |
| `ColorbarStyle.ContainerStyle` | platform/core/src/services/ColorbarService/ColorbarService.ts:24-65 | the container style always carries every default key, and `position`, `boxSizing`, `border` and `cursor` keep their defaults whatever the preset |
| `ColorbarStyle.NoPresetKeepsDefaults` | platform/core/src/services/ColorbarService/ColorbarService.ts:63-65 | a position other than left/right/top/bottom leaves the default style exactly unchanged |
| `ColorbarStyle.ContainerAxes` | platform/core/src/services/ColorbarService/ColorbarService.ts:29-58 | top and bottom make the bar horizontal: height is `options.width or '2.5%'`, width is `50%`, with `translateX(-50%)`. Every other position keeps width `options.width or '2.5%'`, height `50%` and `translateY(-50%)` |
| `ColorbarStyle.ContainerAnchors` | platform/core/src/services/ColorbarService/ColorbarService.ts:30-65 | each preset's anchor: left gives left 5% and right unset; right gives right 5% and left unset; top gives top 5% and bottom unset; bottom gives bottom 5% and top unset. Without a preset the bar is anchored right 5%, top 50% |
| `ColorbarStyle.TicksConfig` | platform/core/src/services/ColorbarService/ColorbarService.ts:75-86 | the tick config has `position` and `style` plus the caller's keys. Every key in `options.ticks` wins, including `style` as a whole. `position` defaults to `'left'` and `style` to the default tick style |
| `DomModel.ChildrenOfAppended` | platform/core/src/services/ColorbarService/ColorbarService.ts:67 | appending a detached node to an element adds exactly that node to the element's children |
| `DomModel.Document.CreateElement` | platform/core/src/services/ColorbarService/ColorbarService.ts:21 | `document.createElement` yields a new node with no id and an empty style, and changes nothing else |
| `DomModel.Document.SetId` | platform/core/src/services/ColorbarService/ColorbarService.ts:22 | setting a node's `id` changes that node's id and nothing else |
| `DomModel.Document.AssignStyle` | platform/core/src/services/ColorbarService/ColorbarService.ts:61-64 | `Object.assign(node.style, props)` merges `props` into that node's style, the assigned values winning, and changes nothing else |
| `DomModel.Document.AppendChild` | platform/core/src/services/ColorbarService/ColorbarService.ts:67 | `element.appendChild(node)` makes the host element the node's parent, and nothing else changes |
| `DomModel.Document.ParentNode` | platform/core/src/services/ColorbarService/ColorbarService.ts:100 | `node.parentNode` is non-null exactly when the node is attached, and is then its host element |
| `DomModel.Document.RemoveChild` | platform/core/src/services/ColorbarService/ColorbarService.ts:100 | `removeChild` detaches the node when it is a child of the given parent; otherwise it throws and changes nothing |
| `ColorbarState.InitialValid` | platform/core/src/services/ColorbarService/ColorbarService.ts:8 | an empty table satisfies the invariant, and no viewport id (own keys only, see "Left out") is toggled |
| `ColorbarState.BuildContainerShape` | platform/core/src/services/ColorbarService/ColorbarService.ts:20-65 | `addColorbar` creates one new `div` node with id `ctColorbarContainer-<id>` and the container style, and attaches nothing yet |
| `ColorbarState.AddColorbarEffect` | platform/core/src/services/ColorbarService/ColorbarService.ts:20-95 | after `addColorbar` the viewport is toggled and its entry has `needsRefresh == false`. Exactly one `(id, added)` event is appended. The new container is the next node, attached to the host element, and named `ctColorbarContainer-<id>`. The colorbar is named `ctColorbar-<id>`, with `activeColormapName` defaulting to `'Grayscale'`, colormaps defaulting to `{}`, and the merged ticks. Other viewports' entries are unchanged |
| `ColorbarState.AddWithoutOptions` | platform/core/src/services/ColorbarService/ColorbarService.ts:20-86 | with `options = {}` the container gets exactly the default style, the colorbar gets `'Grayscale'`, an empty colormap table and ticks `{ position: 'left', style: <default tick style> }` |
| `ColorbarState.AddColorbarValid` | platform/core/src/services/ColorbarService/ColorbarService.ts:20-95 | `addColorbar` keeps the invariant, and its new container was not attached before |
| `ColorbarState.RemoveColorbarEffect` | platform/core/src/services/ColorbarService/ColorbarService.ts:97-109 | for an absent id nothing changes and no event is emitted. For a present id with an attached container, the container is detached, the entry is deleted and exactly `(id, removed)` is appended. In a valid state the container is attached. Other viewports are unchanged |
| `ColorbarState.RemoveColorbarValid` | platform/core/src/services/ColorbarService/ColorbarService.ts:97-109 | `removeColorbar` keeps the invariant |
| `ColorbarState.UpdateActiveColormapEffect` | platform/core/src/services/ColorbarService/ColorbarService.ts:111-120 | only an existing entry's `activeColormapName` changes, and nothing else in it. No entry is ever created. `(id, updated)` is appended even when the id is absent |
| `ColorbarState.UpdateActiveColormapValid` | platform/core/src/services/ColorbarService/ColorbarService.ts:111-120 | the colormap update keeps the invariant |
| `ColorbarState.MarkForRefreshEffect` | platform/core/src/services/ColorbarService/ColorbarService.ts:134-139 | an existing entry gets `needsRefresh := refresh` and nothing else changes. An absent id changes nothing, so it never becomes toggled. No event is emitted |
| `ColorbarState.MarkForRefreshValid` | platform/core/src/services/ColorbarService/ColorbarService.ts:134-139 | `markForRefresh` keeps the invariant |
| `ColorbarState.RemoveAfterForeignDetachThrows` | platform/core/src/services/ColorbarService/ColorbarService.ts:98-100 | once code other than the service has detached an entry's container, `removeColorbar` takes the throwing path and changes nothing |
| `ColorbarState.AddThenRemoveDetaches` | platform/core/src/services/ColorbarService/ColorbarService.ts:67-109 | `addColorbar` then `removeColorbar` leaves the host's children and all attachments as they were. The viewport is untoggled, and the events `added` then `removed` were emitted |
| `ColorbarState.AddOverwriteOrphansContainer` | platform/core/src/services/ColorbarService/ColorbarService.ts:67-89 | a second `addColorbar` for an existing id overwrites its entry, while the old container stays attached and no entry refers to it |
| `ColorbarState.AddTwiceThenRemoveLeaks` | platform/core/src/services/ColorbarService/ColorbarService.ts:67-101 | add, add, remove for one viewport leaves the first container attached as the one extra child of the host element |
| `ColorbarService.ColorbarService.constructor` | platform/core/src/services/ColorbarService/ColorbarService.ts:8-18 | a new service has an empty table, has broadcast nothing, and acts on the given document |
| `ColorbarService.ColorbarService.BroadcastEvent` | platform/core/src/services/ColorbarService/ColorbarService.ts:91-94 | broadcasting appends exactly one `COLORBAR_STATE_CHANGED` event with the payload, and leaves the table alone |
| `ColorbarService.ColorbarService.AddColorbar` | platform/core/src/services/ColorbarService/ColorbarService.ts:20-95 | the service and document reach `ColorbarState.AddColorbar` of their old state. The id is toggled with `needsRefresh == false`, and one `added` event is appended |
| `ColorbarService.ColorbarService.RemoveColorbar` | platform/core/src/services/ColorbarService/ColorbarService.ts:97-109 | the service and document reach `ColorbarState.RemoveColorbar` of their old state. The call throws `TypeError` exactly when the container has no parent; otherwise the id is no longer toggled |
| `ColorbarService.ColorbarService.UpdateActiveColormapForColorbar` | platform/core/src/services/ColorbarService/ColorbarService.ts:111-120 | the service reaches `ColorbarState.UpdateActiveColormap` of its old state, and one `updated` event is always appended |
| `ColorbarService.ColorbarService.IsColorbarToggled` | platform/core/src/services/ColorbarService/ColorbarService.ts:122-124 | true exactly when the table has an entry for the id |
| `ColorbarService.ColorbarService.GetState` | platform/core/src/services/ColorbarService/ColorbarService.ts:126-128 | returns the whole table |
| `ColorbarService.ColorbarService.GetColorbarState` | platform/core/src/services/ColorbarService/ColorbarService.ts:130-132 | returns the id's entry when there is one, and nothing (`undefined`) otherwise |
| `ColorbarService.ColorbarService.MarkForRefresh` | platform/core/src/services/ColorbarService/ColorbarService.ts:134-139 | the service reaches `ColorbarState.MarkForRefresh` of its old state, and no event is appended |
| `ColorbarTraces.RunValid` | platform/core/src/services/ColorbarService/ColorbarService.ts:20-139 | any sequence of mutator calls keeps the invariant |
| `ColorbarTraces.RunNeverThrowsOnRemove` | platform/core/src/services/ColorbarService/ColorbarService.ts:97-101 | through the service's own calls alone, a service that starts empty never reaches a state where `removeColorbar` would throw |
| `ColorbarTraces.ApplyToggled` | platform/core/src/services/ColorbarService/ColorbarService.ts:89-139 | add toggles its id on and remove toggles it off, in a valid state. Update and mark never change a toggle, and no call changes another id's toggle |
| `ColorbarTraces.RunToggled` | platform/core/src/services/ColorbarService/ColorbarService.ts:89-124 | after any sequence of calls, `isColorbarToggled(id)` equals the reference `ToggledAfter`: the last add or remove of that id decides; with neither, the prior answer stands |
| `ColorbarTraces.ApplyFrame` | platform/core/src/services/ColorbarService/ColorbarService.ts:89-139 | a call for another viewport leaves this viewport's entry unchanged |
| `ColorbarTraces.RunFrame` | platform/core/src/services/ColorbarService/ColorbarService.ts:89-139 | any sequence of calls for other viewports leaves this viewport's entry unchanged |
| `ColorbarTraces.RunEvents` | platform/core/src/services/ColorbarService/ColorbarService.ts:91-119 | the event log only grows, by at most one event per call, and every new event is a `COLORBAR_STATE_CHANGED` event |
| `ColorbarTraces.AddRemoveUpdateNotifications` | platform/core/src/services/ColorbarService/ColorbarService.ts:89-120 | add, remove, update for one viewport yields exactly the notifications `added`, `removed`, `updated` with that id, in that order, and leaves the viewport untoggled |

## Left out

- `extensions/cornerstone/src/components/WindowLevelActionMenu/WindowLevelActionMenu.tsx`:
  it is a React view (hooks, effects, translation, menu layout, dispatch through
  the command manager). Its mark-on-unmount and remove-and-re-add-on-remount
  steps are effect lifecycles plus a zero-delay timer. The view calls
  `isColorbarToggled`, `getColorbarState`, `markForRefresh` and
  `removeColorbar` directly, and those calls are modelled. It re-adds a
  colorbar through the `toggleViewportColorbar` command run by the command
  manager. That command is not part of this model; it is assumed to end in
  `addColorbar`.
- Real DOM rendering: CSS parsing and normalisation of the assigned style values
  is not modelled. The style is the map of values assigned, keyed by an
  enumeration of the eleven properties the service writes.
- The `ViewportColorbar` constructor and its rendering are foreign calls. The
  colorbar is the record of its arguments. The `activeColormapName` setter's
  re-rendering is not modelled.
- `PubSubService` subscriber lists, delivery order and exception propagation:
  `PubSubService` is not part of this model. Broadcasting is an append to the event log.
- `REGISTRATION` and the singleton `create` are framework plumbing.
- Aliasing: `getState` and `getColorbarState` return the service's live table
  and entry objects. Here they return values, so a caller's later mutation of a returned
  entry is not modelled.
- JavaScript numbers are modelled as integers (no fractions, no `NaN`).
  `markForRefresh`'s `refresh` argument is a boolean, because the callers pass `true`.
- `ColorbarStyle.PresetOf`: position values other than strings select no
  preset. This includes a one-element array such as `['left']`, which
  JavaScript's `in` would convert to the key `'left'`.
- `Js.Spread`: spreading a string or an array for `options.ticks` is treated
  as contributing no keys. In JavaScript such a spread contributes one key per
  index.
- Viewport ids are assumed not to name `Object.prototype` properties. The
  table `colorbars = {}` is a plain object, so in JavaScript such an id finds an
  inherited value. For example, on a fresh service `isColorbarToggled('constructor')`
  is true, and `removeColorbar('toString')` and
  `updateActiveColormapForColorbar('toString', name)` throw a `TypeError`.
  `markForRefresh('__proto__', refresh)` writes onto `Object.prototype`. The model's table is a map of
  own keys only, so for these ids it answers as for an absent id.
- DOM changes made by code other than the service are not among the modelled
  calls. For example, clearing the host element's children detaches a container
  behind the service's back. `RunNeverThrowsOnRemove` covers only the service's
  own calls, and `RemoveAfterForeignDetachThrows` shows the throw that such a
  detach enables.
- `addColorbar`'s own failure paths. The default `options = {}` applies only
  to `undefined`: with `null`, reading `options.width` throws after the
  container was created and named. A throwing `ViewportColorbar` constructor
  runs after `appendChild`, so it leaves an attached container with no entry
  and no `added` event. With `element` null or undefined, `appendChild` throws
  after the container was created, named and styled: nothing is attached, no
  entry is stored and no event is broadcast. In the model the host element
  always exists, and the model covers only a non-null `options` and a
  constructor that returns normally.
