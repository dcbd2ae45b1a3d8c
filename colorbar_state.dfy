/**
 * The colorbar service's observable state as a value, and what each of its
 * mutators does to it: the per-viewport table of colorbar entries, the log
 * of `COLORBAR_STATE_CHANGED` notifications, and the document the
 * containers live in. The class in ColorbarService is proved against these
 * functions; the lemmas here state what the functions guarantee.
 */
module ColorbarState {
  import opened Js
  import opened DomModel
  import opened ColorbarStyle

  /** The one event name the service broadcasts. */
  const COLORBAR_STATE_CHANGED: string := "event::ColorbarService:stateChanged"

  /** The `options` argument of `addColorbar`; an omitted property is `Undefined`. */
  datatype Options = Options(
    position: JsValue,
    width: JsValue,
    colormaps: JsValue,
    activeColormapName: JsValue,
    ticks: JsValue)

  /** `options = {}`. */
  const NoOptions: Options := Options(Undefined, Undefined, Undefined, Undefined, Undefined)

  /**
   * A `ViewportColorbar`, reduced to the arguments its constructor received;
   * `activeColormapName` is the one property the service reassigns later.
   */
  datatype Colorbar = Colorbar(
    id: string,
    element: ElementId,
    colormaps: JsValue,
    activeColormapName: JsValue,
    container: NodeId,
    ticks: Props)

  /** One value of the `colorbars` table. */
  datatype Entry = Entry(colorbar: Colorbar, container: NodeId, needsRefresh: bool)

  /** The `state` of a notification payload. */
  datatype ChangeKind = Added | Removed | Updated

  /** A broadcast event: its name and its payload `{ viewportId, state }`. */
  datatype Event = Event(name: string, viewportId: string, state: ChangeKind)

  /** The service's table and event log, with the document they refer to. */
  datatype World = World(colorbars: map<string, Entry>, events: seq<Event>, dom: Dom)

  function ContainerDomId(viewportId: string): string {
    "ctColorbarContainer-" + viewportId
  }

  function ColorbarDomId(viewportId: string): string {
    "ctColorbar-" + viewportId
  }

  function Changed(viewportId: string, state: ChangeKind): Event {
    Event(COLORBAR_STATE_CHANGED, viewportId, state)
  }

  /** `colorbars[viewportId]`, `None` standing for `undefined`. */
  function Lookup(w: World, viewportId: string): Option<Entry> {
    if viewportId in w.colorbars then Some(w.colorbars[viewportId]) else None
  }

  /** `isColorbarToggled`: an entry object is always truthy. */
  predicate IsToggled(w: World, viewportId: string) {
    viewportId in w.colorbars
  }

  // ---------------------------------------------------------------------
  // The mutators

  /**
   * The document after `addColorbar` has created its container, named it and
   * assigned its style, before appending it.
   */
  function BuildContainer(d: Dom, viewportId: string, options: Options): Dom {
    var c := NextNode(d);
    var named := WithId(Created(d, "div"), c, ContainerDomId(viewportId));
    var styled := WithStyle(named, c, DefaultStyles(options.width));
    match PresetOf(options.position)
    case Some(anchor) => WithStyle(styled, c, PositionStyles(anchor, options.width))
    case None => styled
  }

  /** What `addColorbar` passes to the `ViewportColorbar` constructor. */
  function NewColorbar(viewportId: string, element: ElementId, options: Options, container: NodeId): Colorbar {
    Colorbar(
      ColorbarDomId(viewportId),
      element,
      Or(options.colormaps, Obj(map[])),
      Or(options.activeColormapName, Str("Grayscale")),
      container,
      TicksConfig(options.ticks))
  }

  function AddColorbar(w: World, viewportId: string, element: ElementId, options: Options): World {
    var c := NextNode(w.dom);
    World(
      w.colorbars[viewportId := Entry(NewColorbar(viewportId, element, options, c), c, false)],
      w.events + [Changed(viewportId, Added)],
      Appended(BuildContainer(w.dom, viewportId, options), element, c))
  }

  /**
   * `removeColorbar` throws a `TypeError` before changing anything when the
   * entry's container has no `parentNode`.
   */
  predicate RemoveThrows(w: World, viewportId: string) {
    viewportId in w.colorbars && w.colorbars[viewportId].container !in w.dom.parentOf
  }

  function RemoveColorbar(w: World, viewportId: string): World {
    if viewportId !in w.colorbars || RemoveThrows(w, viewportId) then w
    else
      World(
        w.colorbars - {viewportId},
        w.events + [Changed(viewportId, Removed)],
        Detached(w.dom, w.colorbars[viewportId].container))
  }

  function UpdateActiveColormap(w: World, viewportId: string, name: JsValue): World {
    var colorbars :=
      if viewportId in w.colorbars then
        var e := w.colorbars[viewportId];
        w.colorbars[viewportId := e.(colorbar := e.colorbar.(activeColormapName := name))]
      else w.colorbars;
    w.(colorbars := colorbars, events := w.events + [Changed(viewportId, Updated)])
  }

  function MarkForRefresh(w: World, viewportId: string, refresh: bool): World {
    if viewportId in w.colorbars then
      w.(colorbars := w.colorbars[viewportId := w.colorbars[viewportId].(needsRefresh := refresh)])
    else w
  }

  // ---------------------------------------------------------------------
  // The invariant every mutator keeps

  /** What an entry must satisfy: its colorbar and its container belong to it, and the container is attached. */
  ghost predicate EntryValid(w: World, viewportId: string)
    requires viewportId in w.colorbars
  {
    var e := w.colorbars[viewportId];
    && e.container < |w.dom.nodes|
    && e.colorbar.container == e.container
    && e.colorbar.id == ColorbarDomId(viewportId)
    && w.dom.nodes[e.container].id == ContainerDomId(viewportId)
    && e.container in w.dom.parentOf
    && w.dom.parentOf[e.container] == e.colorbar.element
  }

  /**
   * Every attached node was created, every entry is well formed, and no two
   * entries share a container.
   */
  ghost predicate Valid(w: World) {
    && (forall n :: n in w.dom.parentOf ==> n < |w.dom.nodes|)
    && (forall id :: id in w.colorbars ==> EntryValid(w, id))
    && (forall id1, id2 ::
          id1 in w.colorbars && id2 in w.colorbars && id1 != id2 ==>
            w.colorbars[id1].container != w.colorbars[id2].container)
  }

  /** A fresh service holds no entries and has broadcast nothing. */
  lemma InitialValid(d: Dom)
    requires forall n :: n in d.parentOf ==> n < |d.nodes|
    ensures Valid(World(map[], [], d))
    ensures forall id :: !IsToggled(World(map[], [], d), id)
  {
  }

  // ---------------------------------------------------------------------
  // What each mutator does

  /** The container that `addColorbar` builds, as a node. */
  lemma BuildContainerShape(d: Dom, viewportId: string, options: Options)
    ensures BuildContainer(d, viewportId, options).parentOf == d.parentOf
    ensures BuildContainer(d, viewportId, options).nodes ==
      d.nodes + [NodeInfo("div", ContainerDomId(viewportId), ContainerStyle(options.position, options.width))]
  {
    var c := NextNode(d);
    var named := WithId(Created(d, "div"), c, ContainerDomId(viewportId));
    assert named.nodes == d.nodes + [NodeInfo("div", ContainerDomId(viewportId), map[])];
    var styled := WithStyle(named, c, DefaultStyles(options.width));
    var base := Assign(map[], DefaultStyles(options.width));
    assert styled.nodes == d.nodes + [NodeInfo("div", ContainerDomId(viewportId), base)];
    match PresetOf(options.position)
    case Some(anchor) =>
      var full := WithStyle(styled, c, PositionStyles(anchor, options.width));
      assert full.nodes == d.nodes + [NodeInfo("div", ContainerDomId(viewportId), Assign(base, PositionStyles(anchor, options.width)))];
    case None =>
  }

  /**
   * `addColorbar`: the viewport is toggled with a fresh entry that does not
   * need a refresh, exactly one `added` event is appended, a new container
   * named after the viewport is attached to the host element, and the
   * colorbar is built from the options with their defaults.
   */
  lemma AddColorbarEffect(w: World, viewportId: string, element: ElementId, options: Options)
    ensures var r := AddColorbar(w, viewportId, element, options);
      && IsToggled(r, viewportId)
      && !r.colorbars[viewportId].needsRefresh
      && r.events == w.events + [Changed(viewportId, Added)]
      && (forall other :: other != viewportId ==> Lookup(r, other) == Lookup(w, other))
    ensures var r := AddColorbar(w, viewportId, element, options);
      var e := r.colorbars[viewportId];
      && e.container == |w.dom.nodes|
      && r.dom.nodes == w.dom.nodes + [NodeInfo("div", "ctColorbarContainer-" + viewportId, ContainerStyle(options.position, options.width))]
      && r.dom.parentOf == w.dom.parentOf[e.container := element]
    ensures var e := AddColorbar(w, viewportId, element, options).colorbars[viewportId];
      && e.colorbar.id == "ctColorbar-" + viewportId
      && e.colorbar.element == element
      && e.colorbar.container == e.container
      && e.colorbar.ticks == TicksConfig(options.ticks)
      && (if Truthy(options.activeColormapName) then e.colorbar.activeColormapName == options.activeColormapName
          else e.colorbar.activeColormapName == Str("Grayscale"))
      && (if Truthy(options.colormaps) then e.colorbar.colormaps == options.colormaps
          else e.colorbar.colormaps == Obj(map[]))
  {
    BuildContainerShape(w.dom, viewportId, options);
  }

  /**
   * `addColorbar` with `options = {}`: the default container style, the
   * `'Grayscale'` colormap, an empty colormap table and the default ticks.
   */
  lemma AddWithoutOptions(w: World, viewportId: string, element: ElementId)
    ensures var r := AddColorbar(w, viewportId, element, NoOptions);
      var e := r.colorbars[viewportId];
      && r.dom.nodes[e.container].style == DefaultStyles(Undefined)
      && e.colorbar.activeColormapName == Str("Grayscale")
      && e.colorbar.colormaps == Obj(map[])
      && e.colorbar.ticks == map["position" := Str("left"), "style" := DefaultTickStyle]
  {
    AddColorbarEffect(w, viewportId, element, NoOptions);
    NoPresetKeepsDefaults(Undefined, Undefined);
    assert TicksConfig(Undefined) == map["position" := Str("left"), "style" := DefaultTickStyle];
  }

  lemma AddColorbarValid(w: World, viewportId: string, element: ElementId, options: Options)
    requires Valid(w)
    ensures NextNode(w.dom) !in w.dom.parentOf
    ensures Valid(AddColorbar(w, viewportId, element, options))
  {
    BuildContainerShape(w.dom, viewportId, options);
    var r := AddColorbar(w, viewportId, element, options);
    var c := NextNode(w.dom);
    forall id | id in r.colorbars
      ensures EntryValid(r, id)
    {
      if id != viewportId {
        assert EntryValid(w, id);
        assert r.dom.nodes[w.colorbars[id].container] == w.dom.nodes[w.colorbars[id].container];
      }
    }
  }

  /**
   * `removeColorbar`: nothing happens for an absent viewport. For a present
   * one whose container is attached, the container is detached, the entry is
   * deleted and exactly one `removed` event is appended; in a valid state
   * the container is always attached.
   */
  lemma RemoveColorbarEffect(w: World, viewportId: string)
    ensures var r := RemoveColorbar(w, viewportId);
      && (viewportId !in w.colorbars || RemoveThrows(w, viewportId) ==> r == w)
      && (Valid(w) ==> !RemoveThrows(w, viewportId))
      && (forall other :: other != viewportId ==> Lookup(r, other) == Lookup(w, other))
    ensures var r := RemoveColorbar(w, viewportId);
      viewportId in w.colorbars && !RemoveThrows(w, viewportId) ==>
        && !IsToggled(r, viewportId)
        && r.events == w.events + [Changed(viewportId, Removed)]
        && r.dom.nodes == w.dom.nodes
        && r.dom.parentOf == w.dom.parentOf - {w.colorbars[viewportId].container}
  {
  }

  lemma RemoveColorbarValid(w: World, viewportId: string)
    requires Valid(w)
    ensures Valid(RemoveColorbar(w, viewportId))
  {
    var r := RemoveColorbar(w, viewportId);
    forall id | id in r.colorbars
      ensures EntryValid(r, id)
    {
      assert EntryValid(w, id);
    }
  }

  /**
   * `updateActiveColormapForColorbar`: renames the active colormap of an
   * existing entry only, never creates one, leaves the document alone, and
   * appends an `updated` event whether or not the entry exists.
   */
  lemma UpdateActiveColormapEffect(w: World, viewportId: string, name: JsValue)
    ensures var r := UpdateActiveColormap(w, viewportId, name);
      && r.events == w.events + [Changed(viewportId, Updated)]
      && r.dom == w.dom
      && (IsToggled(r, viewportId) <==> IsToggled(w, viewportId))
      && (forall other :: other != viewportId ==> Lookup(r, other) == Lookup(w, other))
      && (viewportId !in w.colorbars ==> r.colorbars == w.colorbars)
    ensures var r := UpdateActiveColormap(w, viewportId, name);
      viewportId in w.colorbars ==>
        var before, after := w.colorbars[viewportId], r.colorbars[viewportId];
        && after.colorbar.activeColormapName == name
        && after.colorbar.(activeColormapName := before.colorbar.activeColormapName) == before.colorbar
        && after.container == before.container
        && after.needsRefresh == before.needsRefresh
  {
  }

  lemma UpdateActiveColormapValid(w: World, viewportId: string, name: JsValue)
    requires Valid(w)
    ensures Valid(UpdateActiveColormap(w, viewportId, name))
  {
    var r := UpdateActiveColormap(w, viewportId, name);
    forall id | id in r.colorbars
      ensures EntryValid(r, id)
    {
      assert EntryValid(w, id);
    }
  }

  /**
   * `markForRefresh`: sets the flag of an existing entry and nothing else;
   * for an absent viewport nothing changes, so it never toggles a colorbar
   * on, and it never broadcasts.
   */
  lemma MarkForRefreshEffect(w: World, viewportId: string, refresh: bool)
    ensures var r := MarkForRefresh(w, viewportId, refresh);
      && r.events == w.events
      && r.dom == w.dom
      && (IsToggled(r, viewportId) <==> IsToggled(w, viewportId))
      && (forall other :: other != viewportId ==> Lookup(r, other) == Lookup(w, other))
      && (viewportId !in w.colorbars ==> r == w)
      && (viewportId in w.colorbars ==>
            r.colorbars[viewportId] == w.colorbars[viewportId].(needsRefresh := refresh)
            && r.colorbars[viewportId].needsRefresh == refresh)
  {
  }

  lemma MarkForRefreshValid(w: World, viewportId: string, refresh: bool)
    requires Valid(w)
    ensures Valid(MarkForRefresh(w, viewportId, refresh))
  {
    var r := MarkForRefresh(w, viewportId, refresh);
    forall id | id in r.colorbars
      ensures EntryValid(r, id)
    {
      assert EntryValid(w, id);
    }
  }

  /**
   * The `TypeError` path of `removeColorbar` is reached once code other than
   * the service has detached an entry's container: the call then changes
   * nothing.
   */
  lemma RemoveAfterForeignDetachThrows(w: World, viewportId: string)
    requires Valid(w) && viewportId in w.colorbars
    ensures var x := w.(dom := Detached(w.dom, w.colorbars[viewportId].container));
      && RemoveThrows(x, viewportId)
      && RemoveColorbar(x, viewportId) == x
  {
  }

  // ---------------------------------------------------------------------
  // Attachment of containers to host elements

  /** Adding and then removing a colorbar leaves the document's attachments as they were. */
  lemma AddThenRemoveDetaches(w: World, viewportId: string, element: ElementId, options: Options)
    requires Valid(w)
    ensures var r := RemoveColorbar(AddColorbar(w, viewportId, element, options), viewportId);
      && !IsToggled(r, viewportId)
      && r.dom.parentOf == w.dom.parentOf
      && ChildrenOf(r.dom, element) == ChildrenOf(w.dom, element)
      && r.events == w.events + [Changed(viewportId, Added), Changed(viewportId, Removed)]
  {
    var c := NextNode(w.dom);
    AddColorbarValid(w, viewportId, element, options);
    AddColorbarEffect(w, viewportId, element, options);
    var a := AddColorbar(w, viewportId, element, options);
    assert !RemoveThrows(a, viewportId);
    assert a.dom.parentOf - {c} == w.dom.parentOf;
  }

  /**
   * `addColorbar` on a viewport that already has an entry overwrites it, but
   * the old container stays attached where it was and no entry refers to it
   * any more.
   */
  lemma AddOverwriteOrphansContainer(w: World, viewportId: string, element: ElementId, options: Options)
    requires Valid(w)
    requires viewportId in w.colorbars
    ensures var r := AddColorbar(w, viewportId, element, options);
      var orphan := w.colorbars[viewportId].container;
      && orphan in r.dom.parentOf && r.dom.parentOf[orphan] == w.dom.parentOf[orphan]
      && (forall id :: id in r.colorbars ==> r.colorbars[id].container != orphan)
  {
    var r := AddColorbar(w, viewportId, element, options);
    var orphan := w.colorbars[viewportId].container;
    assert EntryValid(w, viewportId);
    forall id | id in r.colorbars
      ensures r.colorbars[id].container != orphan
    {
      if id != viewportId {
        assert w.colorbars[id].container != orphan;
      }
    }
  }

  /**
   * Two `addColorbar` calls for one viewport followed by `removeColorbar`
   * leave the first container attached as the one extra child of the
   * host element.
   */
  lemma AddTwiceThenRemoveLeaks(w: World, viewportId: string, element: ElementId, first: Options, second: Options)
    requires Valid(w)
    ensures var w1 := AddColorbar(w, viewportId, element, first);
      var r := RemoveColorbar(AddColorbar(w1, viewportId, element, second), viewportId);
      && !IsToggled(r, viewportId)
      && ChildrenOf(r.dom, element) == ChildrenOf(w.dom, element) + {w1.colorbars[viewportId].container}
  {
    var w1 := AddColorbar(w, viewportId, element, first);
    AddColorbarValid(w, viewportId, element, first);
    AddThenRemoveDetaches(w1, viewportId, element, second);
    assert w1.dom.parentOf == w.dom.parentOf[NextNode(w.dom) := element];
    ChildrenOfAppended(w.dom, element, NextNode(w.dom));
  }
}
