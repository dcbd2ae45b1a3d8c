/**
 * Sequences of calls to the colorbar service's mutators, as a viewer issues
 * them over time, and what holds after any such sequence.
 */
module ColorbarTraces {
  import opened Js
  import opened DomModel
  import opened ColorbarState

  /** One call to a mutator. */
  datatype Op =
    | AddOp(viewportId: string, element: ElementId, options: Options)
    | RemoveOp(viewportId: string)
    | UpdateOp(viewportId: string, name: JsValue)
    | MarkOp(viewportId: string, refresh: bool)

  function Apply(w: World, op: Op): World {
    match op
    case AddOp(id, element, options) => AddColorbar(w, id, element, options)
    case RemoveOp(id) => RemoveColorbar(w, id)
    case UpdateOp(id, name) => UpdateActiveColormap(w, id, name)
    case MarkOp(id, refresh) => MarkForRefresh(w, id, refresh)
  }

  /** The calls in order, first to last. */
  function Run(w: World, ops: seq<Op>): World
    decreases |ops|
  {
    if ops == [] then w else Run(Apply(w, ops[0]), ops[1..])
  }

  /**
   * Reference answer to "is the colorbar toggled after these calls": the
   * last add or remove for that viewport decides; updates and refresh marks
   * never matter; with neither, the answer before the calls stands.
   */
  function ToggledAfter(ops: seq<Op>, viewportId: string, before: bool): bool
    decreases |ops|
  {
    if ops == [] then before
    else
      var last := ops[|ops| - 1];
      if last.AddOp? && last.viewportId == viewportId then true
      else if last.RemoveOp? && last.viewportId == viewportId then false
      else ToggledAfter(ops[..|ops| - 1], viewportId, before)
  }

  lemma ApplyValid(w: World, op: Op)
    requires Valid(w)
    ensures Valid(Apply(w, op))
  {
    match op
    case AddOp(id, element, options) => AddColorbarValid(w, id, element, options);
    case RemoveOp(id) => RemoveColorbarValid(w, id);
    case UpdateOp(id, name) => UpdateActiveColormapValid(w, id, name);
    case MarkOp(id, refresh) => MarkForRefreshValid(w, id, refresh);
  }

  /** Every sequence of calls keeps the service's invariant. */
  lemma {:induction false} RunValid(w: World, ops: seq<Op>)
    requires Valid(w)
    ensures Valid(Run(w, ops))
    decreases |ops|
  {
    if ops != [] {
      ApplyValid(w, ops[0]);
      RunValid(Apply(w, ops[0]), ops[1..]);
    }
  }

  /** Running one more call is applying it to the state the others left. */
  lemma {:induction false} RunSnoc(w: World, ops: seq<Op>, op: Op)
    ensures Run(w, ops + [op]) == Apply(Run(w, ops), op)
    decreases |ops|
  {
    if ops == [] {
      assert [op][1..] == [];
    } else {
      assert (ops + [op])[1..] == ops[1..] + [op];
      RunSnoc(Apply(w, ops[0]), ops[1..], op);
    }
  }

  /**
   * A service that starts empty never reaches a state in which
   * `removeColorbar` throws: every entry's container stays attached.
   */
  lemma RunNeverThrowsOnRemove(d: Dom, ops: seq<Op>, viewportId: string)
    requires forall n :: n in d.parentOf ==> n < |d.nodes|
    ensures !RemoveThrows(Run(World(map[], [], d), ops), viewportId)
  {
    InitialValid(d);
    RunValid(World(map[], [], d), ops);
    RemoveColorbarEffect(Run(World(map[], [], d), ops), viewportId);
  }

  /** What a single call does to the toggle of one viewport, in a valid state. */
  lemma ApplyToggled(w: World, op: Op, viewportId: string)
    requires Valid(w)
    ensures IsToggled(Apply(w, op), viewportId) ==
      if op.AddOp? && op.viewportId == viewportId then true
      else if op.RemoveOp? && op.viewportId == viewportId then false
      else IsToggled(w, viewportId)
  {
    match op
    case AddOp(id, element, options) => AddColorbarEffect(w, id, element, options);
    case RemoveOp(id) => RemoveColorbarEffect(w, id);
    case UpdateOp(id, name) => UpdateActiveColormapEffect(w, id, name);
    case MarkOp(id, refresh) => MarkForRefreshEffect(w, id, refresh);
  }

  /**
   * After any sequence of calls from a valid state, `isColorbarToggled`
   * answers as the last add or remove for that viewport says.
   */
  lemma {:induction false} RunToggled(w: World, ops: seq<Op>, viewportId: string)
    requires Valid(w)
    ensures IsToggled(Run(w, ops), viewportId) == ToggledAfter(ops, viewportId, IsToggled(w, viewportId))
    decreases |ops|
  {
    if ops != [] {
      var init, last := ops[..|ops| - 1], ops[|ops| - 1];
      assert ops == init + [last];
      RunSnoc(w, init, last);
      RunValid(w, init);
      RunToggled(w, init, viewportId);
      ApplyToggled(Run(w, init), last, viewportId);
    }
  }

  /** A call for another viewport leaves this viewport's entry alone. */
  lemma ApplyFrame(w: World, op: Op, viewportId: string)
    requires op.viewportId != viewportId
    ensures Lookup(Apply(w, op), viewportId) == Lookup(w, viewportId)
  {
    match op
    case AddOp(id, element, options) => AddColorbarEffect(w, id, element, options);
    case RemoveOp(id) => RemoveColorbarEffect(w, id);
    case UpdateOp(id, name) => UpdateActiveColormapEffect(w, id, name);
    case MarkOp(id, refresh) => MarkForRefreshEffect(w, id, refresh);
  }

  /** Calls for other viewports leave a viewport's entry exactly as it was. */
  lemma {:induction false} RunFrame(w: World, ops: seq<Op>, viewportId: string)
    requires forall j :: 0 <= j < |ops| ==> ops[j].viewportId != viewportId
    ensures Lookup(Run(w, ops), viewportId) == Lookup(w, viewportId)
    decreases |ops|
  {
    if ops != [] {
      ApplyFrame(w, ops[0], viewportId);
      RunFrame(Apply(w, ops[0]), ops[1..], viewportId);
    }
  }

  /** The event log only grows, by at most one event per call, each under the service's event name. */
  lemma {:induction false} RunEvents(w: World, ops: seq<Op>)
    ensures var r := Run(w, ops);
      && w.events <= r.events
      && |r.events| <= |w.events| + |ops|
      && (forall k :: |w.events| <= k < |r.events| ==> r.events[k].name == COLORBAR_STATE_CHANGED)
    decreases |ops|
  {
    if ops != [] {
      var a := Apply(w, ops[0]);
      assert w.events <= a.events && |a.events| <= |w.events| + 1;
      assert forall k :: |w.events| <= k < |a.events| ==> a.events[k].name == COLORBAR_STATE_CHANGED;
      RunEvents(a, ops[1..]);
    }
  }

  /**
   * Adding, removing and then updating a viewport's colorbar notifies
   * `added`, `removed`, `updated` in that order, each for that viewport, and
   * leaves it untoggled; the `updated` event comes although no entry exists.
   */
  lemma AddRemoveUpdateNotifications(w: World, viewportId: string, element: ElementId, options: Options, name: JsValue)
    ensures var r := Run(w, [AddOp(viewportId, element, options), RemoveOp(viewportId), UpdateOp(viewportId, name)]);
      && r.events == w.events + [Changed(viewportId, Added), Changed(viewportId, Removed), Changed(viewportId, Updated)]
      && !IsToggled(r, viewportId)
  {
    var ops := [AddOp(viewportId, element, options), RemoveOp(viewportId), UpdateOp(viewportId, name)];
    var w1 := AddColorbar(w, viewportId, element, options);
    AddColorbarEffect(w, viewportId, element, options);
    var w2 := RemoveColorbar(w1, viewportId);
    assert !RemoveThrows(w1, viewportId);
    var w3 := UpdateActiveColormap(w2, viewportId, name);
    assert Run(w, ops) == Run(w1, ops[1..]);
    assert Run(w1, ops[1..]) == Run(w2, ops[2..]);
    assert Run(w2, ops[2..]) == Run(w3, []);
  }
}
