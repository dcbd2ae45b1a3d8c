/**
 * The colorbar service itself: an object whose `colorbars` table and event
 * log are updated in place by its methods, which also act on the document.
 * Each mutator is proved to take the pair (service, document) to the state
 * that the matching function of ColorbarState describes.
 */
module ColorbarService {
  import opened Js
  import opened DomModel
  import opened ColorbarStyle
  import opened ColorbarState

  class ColorbarService {
    /** The per-viewport table. */
    var colorbars: map<string, Entry>
    /** Every event broadcast so far, oldest first. */
    var events: seq<Event>
    /** The global `document` every call acts on. */
    const doc: Document

    /** The service and the document, as one value. */
    function Snapshot(): World
      reads this, doc
    {
      World(colorbars, events, doc.Value())
    }

    constructor (document: Document)
      ensures colorbars == map[] && events == [] && doc == document
    {
      colorbars := map[];
      events := [];
      doc := document;
    }

    /** `_broadcastEvent(EVENTS.COLORBAR_STATE_CHANGED, { viewportId, state })`. */
    method BroadcastEvent(viewportId: string, state: ChangeKind)
      modifies this`events
      ensures events == old(events) + [Changed(viewportId, state)]
    {
      events := events + [Event(COLORBAR_STATE_CHANGED, viewportId, state)];
    }

    method AddColorbar(viewportId: string, element: ElementId, options: Options)
      modifies this, doc
      ensures Snapshot() == ColorbarState.AddColorbar(old(Snapshot()), viewportId, element, options)
      ensures viewportId in colorbars && !colorbars[viewportId].needsRefresh
      ensures events == old(events) + [Changed(viewportId, Added)]
    {
      var container := doc.CreateElement("div");
      doc.SetId(container, ContainerDomId(viewportId));
      doc.AssignStyle(container, DefaultStyles(options.width));
      match PresetOf(options.position) {
        case Some(anchor) =>
          doc.AssignStyle(container, PositionStyles(anchor, options.width));
        case None =>
      }
      doc.AppendChild(element, container);
      var colorbar := NewColorbar(viewportId, element, options, container);
      colorbars := colorbars[viewportId := Entry(colorbar, container, false)];
      BroadcastEvent(viewportId, Added);
    }

    /** Returns how the call ended: it throws when the entry's container has no parent. */
    method RemoveColorbar(viewportId: string) returns (result: Outcome)
      modifies this, doc
      ensures result == if RemoveThrows(old(Snapshot()), viewportId) then Threw(TypeError) else Completed
      ensures Snapshot() == ColorbarState.RemoveColorbar(old(Snapshot()), viewportId)
      ensures viewportId !in colorbars || result.Threw?
    {
      if viewportId in colorbars {
        var info := colorbars[viewportId];
        var parent := doc.ParentNode(info.container);
        if parent.None? {
          return Threw(TypeError);
        }
        result := doc.RemoveChild(parent.value, info.container);
        colorbars := colorbars - {viewportId};
        BroadcastEvent(viewportId, Removed);
      } else {
        result := Completed;
      }
    }

    method UpdateActiveColormapForColorbar(viewportId: string, activeColormapName: JsValue)
      modifies this
      ensures Snapshot() == ColorbarState.UpdateActiveColormap(old(Snapshot()), viewportId, activeColormapName)
      ensures events == old(events) + [Changed(viewportId, Updated)]
    {
      if viewportId in colorbars {
        var info := colorbars[viewportId];
        colorbars := colorbars[viewportId := info.(colorbar := info.colorbar.(activeColormapName := activeColormapName))];
      }
      BroadcastEvent(viewportId, Updated);
    }

    method IsColorbarToggled(viewportId: string) returns (toggled: bool)
      ensures toggled <==> viewportId in colorbars
    {
      toggled := viewportId in colorbars;
    }

    /** `getState`: the whole table. */
    method GetState() returns (state: map<string, Entry>)
      ensures state == colorbars
    {
      state := colorbars;
    }

    /** `getColorbarState`: the entry, or `undefined`. */
    method GetColorbarState(viewportId: string) returns (entry: Option<Entry>)
      ensures entry.Some? <==> viewportId in colorbars
      ensures entry.Some? ==> entry.value == colorbars[viewportId]
    {
      entry := if viewportId in colorbars then Some(colorbars[viewportId]) else None;
    }

    method MarkForRefresh(viewportId: string, refresh: bool)
      modifies this
      ensures Snapshot() == ColorbarState.MarkForRefresh(old(Snapshot()), viewportId, refresh)
      ensures events == old(events)
    {
      if viewportId in colorbars {
        var info := colorbars[viewportId];
        colorbars := colorbars[viewportId := info.(needsRefresh := refresh)];
      }
    }
  }
}
