/** Any sequence of calls into the map item, and what holds along it: the zoom invariant,
    a dirty mask that only gains bits, and the style-loaded lifecycle. */
module Traces {
  import opened Values
  import opened SyncFlags
  import opened Normalise
  import ViewSpec

  /** One call into the item: a property write, pan, or a notification it receives. */
  datatype Op =
    | SetMinimumZoomLevel(zoom: real)
    | SetMaximumZoomLevel(zoom: real)
    | SetZoomLevel(zoom: real)
    | SetCenter(center: Coordinate)
    | SetColor(color: Color)
    | Pan(dx: int32, dy: int32)
    | SetStyle(style: Option<StyleId>)
    | SetBearing(angle: real)
    | SetPitch(angle: real)
    | OnMapChanged(change: MapChange)
    | OnStylePropertyUpdated(record: StyleRecord)
    | OnStyleChanged
    | AppendParameter(param: MapParameter)
    | ClearParameter

  function Apply(s: ViewSpec.ViewState, op: Op): ViewSpec.Step {
    match op
    case SetMinimumZoomLevel(z) => ViewSpec.SetMinimumZoomLevel(s, z)
    case SetMaximumZoomLevel(z) => ViewSpec.SetMaximumZoomLevel(s, z)
    case SetZoomLevel(z) => ViewSpec.SetZoomLevel(s, z)
    case SetCenter(c) => ViewSpec.SetCenter(s, c)
    case SetColor(c) => ViewSpec.SetColor(s, c)
    case Pan(dx, dy) => ViewSpec.Pan(s, dx, dy)
    case SetStyle(st) => ViewSpec.SetStyle(s, st)
    case SetBearing(a) => ViewSpec.SetBearing(s, a)
    case SetPitch(a) => ViewSpec.SetPitch(s, a)
    case OnMapChanged(c) => ViewSpec.OnMapChanged(s, c)
    case OnStylePropertyUpdated(r) => ViewSpec.OnStylePropertyUpdated(s, r)
    case OnStyleChanged => ViewSpec.OnStyleChanged(s)
    case AppendParameter(p) => ViewSpec.AppendParameter(s, p)
    case ClearParameter => ViewSpec.ClearParameter(s)
  }

  /** The calls in order: the final state and everything emitted along the way. */
  function Run(s: ViewSpec.ViewState, ops: seq<Op>): ViewSpec.Step
    decreases |ops|
  {
    if ops == [] then ViewSpec.Step(s, [])
    else
      var first := Apply(s, ops[0]);
      var rest := Run(first.state, ops[1..]);
      ViewSpec.Step(rest.state, first.emitted + rest.emitted)
  }

  /** The one SyncState flag a call may raise (none for the calls that raise none). */
  function RaisedFlag(op: Op): SyncMask {
    match op
    case SetMinimumZoomLevel(_) => ZoomNeedsSync
    case SetMaximumZoomLevel(_) => ZoomNeedsSync
    case SetZoomLevel(_) => ZoomNeedsSync
    case SetCenter(_) => CenterNeedsSync
    case Pan(_, _) => PanNeedsSync
    case SetStyle(_) => StyleNeedsSync
    case OnStyleChanged => StyleNeedsSync
    case SetBearing(_) => BearingNeedsSync
    case SetPitch(_) => PitchNeedsSync
    case _ => NothingNeedsSync
  }

  /** Each call either leaves the mask alone or ORs in exactly its own flag. The cases are
      taken in four groups so that no single proof has to unfold every call. */
  lemma ApplyRaisesOnlyItsFlag(s: ViewSpec.ViewState, op: Op)
    ensures RaisesAtMost(s.syncState, Apply(s, op).state.syncState, RaisedFlag(op))
  {
    if op.SetMinimumZoomLevel? || op.SetMaximumZoomLevel? || op.SetZoomLevel? {
      ZoomWritesRaiseOnlyZoom(s, op);
    } else if op.SetCenter? || op.SetColor? || op.SetStyle? || op.SetBearing? || op.SetPitch? {
      PropertyWritesRaiseOnlyTheirFlag(s, op);
    } else if op.Pan? || op.OnMapChanged? || op.OnStylePropertyUpdated? || op.OnStyleChanged? {
      HandlersRaiseOnlyTheirFlag(s, op);
    } else {
      ParameterListLeavesMask(s, op);
    }
  }

  /** The three zoom setters raise at most ZoomNeedsSync; the bound setters only through
      their cascade into setZoomLevel. */
  lemma ZoomWritesRaiseOnlyZoom(s: ViewSpec.ViewState, op: Op)
    requires op.SetMinimumZoomLevel? || op.SetMaximumZoomLevel? || op.SetZoomLevel?
    ensures RaisesAtMost(s.syncState, Apply(s, op).state.syncState, ZoomNeedsSync)
  {
    var t := Apply(s, op).state;
    if op.SetMinimumZoomLevel? {
      assert t == ViewSpec.SetMinimumZoomLevel(s, op.zoom).state;
    } else if op.SetMaximumZoomLevel? {
      assert t == ViewSpec.SetMaximumZoomLevel(s, op.zoom).state;
    } else {
      assert t == ViewSpec.SetZoomLevel(s, op.zoom).state;
    }
    assert t.syncState == s.syncState || t.syncState == s.syncState | ZoomNeedsSync;
  }

  /** setCenter, setStyle, setBearing and setPitch raise at most their own flag; setColor
      raises none. */
  lemma PropertyWritesRaiseOnlyTheirFlag(s: ViewSpec.ViewState, op: Op)
    requires op.SetCenter? || op.SetColor? || op.SetStyle? || op.SetBearing? || op.SetPitch?
    ensures RaisesAtMost(s.syncState, Apply(s, op).state.syncState, RaisedFlag(op))
  {
    var t := Apply(s, op).state;
    if op.SetCenter? {
      assert t == ViewSpec.SetCenter(s, op.center).state;
      assert RaisesAtMost(s.syncState, t.syncState, CenterNeedsSync);
    } else if op.SetColor? {
      assert t == ViewSpec.SetColor(s, op.color).state;
      assert t.syncState == s.syncState;
    } else if op.SetStyle? {
      assert t == ViewSpec.SetStyle(s, op.style).state;
      assert RaisesAtMost(s.syncState, t.syncState, StyleNeedsSync);
    } else if op.SetBearing? {
      assert t == ViewSpec.SetBearing(s, op.angle).state;
      assert RaisesAtMost(s.syncState, t.syncState, BearingNeedsSync);
    } else {
      assert t == ViewSpec.SetPitch(s, op.angle).state;
      assert RaisesAtMost(s.syncState, t.syncState, PitchNeedsSync);
    }
  }

  /** pan raises PanNeedsSync, onStyleChanged StyleNeedsSync, and the two other handlers
      leave the mask alone. */
  lemma HandlersRaiseOnlyTheirFlag(s: ViewSpec.ViewState, op: Op)
    requires op.Pan? || op.OnMapChanged? || op.OnStylePropertyUpdated? || op.OnStyleChanged?
    ensures RaisesAtMost(s.syncState, Apply(s, op).state.syncState, RaisedFlag(op))
  {
    var t := Apply(s, op).state;
    if op.Pan? {
      assert t == ViewSpec.Pan(s, op.dx, op.dy).state;
      assert RaisesAtMost(s.syncState, t.syncState, PanNeedsSync);
    } else if op.OnMapChanged? {
      assert t == ViewSpec.OnMapChanged(s, op.change).state;
      assert t.syncState == s.syncState;
    } else if op.OnStylePropertyUpdated? {
      assert t == ViewSpec.OnStylePropertyUpdated(s, op.record).state;
      assert t.syncState == s.syncState;
    } else {
      assert t == ViewSpec.OnStyleChanged(s).state;
      assert RaisesAtMost(s.syncState, t.syncState, StyleNeedsSync);
    }
  }

  /** The parameter-list operations leave the mask alone. */
  lemma ParameterListLeavesMask(s: ViewSpec.ViewState, op: Op)
    requires op.AppendParameter? || op.ClearParameter?
    ensures Apply(s, op).state.syncState == s.syncState
  {
  }

  /** No call clears a bit of the mask: only the render pass drains it. */
  lemma ApplyNeverClearsBits(s: ViewSpec.ViewState, op: Op)
    ensures Includes(Apply(s, op).state.syncState, s.syncState)
  {
    ApplyRaisesOnlyItsFlag(s, op);
    RaisingOnlyGains(s.syncState, RaisedFlag(op));
  }

  /** A call that dirties the mask also requests a redraw. */
  lemma DirtyingRequestsRedraw(s: ViewSpec.ViewState, op: Op)
    ensures Apply(s, op).state.syncState != s.syncState ==> Update in Apply(s, op).emitted
  {
  }

  /** Every call keeps the item's invariant. */
  lemma ApplyKeepsInvariant(s: ViewSpec.ViewState, op: Op)
    requires ViewSpec.Valid(s)
    ensures ViewSpec.Valid(Apply(s, op).state)
  {
  }

  /** Along any sequence of calls the invariant MIN_ZOOM <= minimum <= zoom <= maximum <=
      MAX_ZOOM (and the rest of Valid) holds, and the mask keeps every bit it had. */
  lemma {:induction false} RunKeepsInvariant(s: ViewSpec.ViewState, ops: seq<Op>)
    requires ViewSpec.Valid(s)
    ensures ViewSpec.Valid(Run(s, ops).state)
    ensures Includes(Run(s, ops).state.syncState, s.syncState)
    decreases |ops|
  {
    if ops != [] {
      var first := Apply(s, ops[0]).state;
      ApplyKeepsInvariant(s, ops[0]);
      ApplyNeverClearsBits(s, ops[0]);
      RunKeepsInvariant(first, ops[1..]);
      IncludesIsTransitive(Run(first, ops[1..]).state.syncState, first.syncState, s.syncState);
    }
  }

  lemma IncludesIsTransitive(a: SyncMask, b: SyncMask, c: SyncMask)
    requires Includes(a, b) && Includes(b, c)
    ensures Includes(a, c)
  {
  }

  /** Every state the item can reach from construction satisfies the invariant. */
  lemma ReachableStatesAreValid(center: Coordinate, color: Color, ops: seq<Op>)
    ensures ViewSpec.Valid(Run(ViewSpec.Initial(center, color), ops).state)
  {
    RunKeepsInvariant(ViewSpec.Initial(center, color), ops);
  }

  /** A property write or notification that emits nothing changed nothing. (The parameter
      list operations emit nothing by design.) */
  lemma SilentCallsChangeNothing(s: ViewSpec.ViewState, op: Op)
    requires !op.AppendParameter? && !op.ClearParameter?
    ensures Apply(s, op).emitted == [] ==> Apply(s, op).state == s
  {
  }

  /** Writing back the value a property already holds is a no-op: no flag, no redraw, no
      signal. For the bearing this rests on fmod leaving a stored bearing unchanged. */
  lemma WritingCurrentValueIsNoOp(s: ViewSpec.ViewState)
    requires ViewSpec.Valid(s)
    ensures Apply(s, SetMinimumZoomLevel(s.minimumZoomLevel)) == ViewSpec.Step(s, [])
    ensures Apply(s, SetMaximumZoomLevel(s.maximumZoomLevel)) == ViewSpec.Step(s, [])
    ensures Apply(s, SetZoomLevel(s.zoomLevel)) == ViewSpec.Step(s, [])
    ensures Apply(s, SetCenter(s.center)) == ViewSpec.Step(s, [])
    ensures Apply(s, SetColor(s.color)) == ViewSpec.Step(s, [])
    ensures Apply(s, SetStyle(s.style)) == ViewSpec.Step(s, [])
    ensures Apply(s, SetBearing(s.bearing)) == ViewSpec.Step(s, [])
    ensures Apply(s, SetPitch(s.pitch)) == ViewSpec.Step(s, [])
  {
    assert IsMultipleOf360(s.bearing - s.bearing);
    FModResultIsUnique(s.bearing, s.bearing);
  }

  /** Once the style is marked as not loaded, it stays so until the engine reports that it
      finished loading a style, whatever else happens. */
  lemma {:induction false} StyleStaysUnloadedUntilLoaded(s: ViewSpec.ViewState, ops: seq<Op>)
    requires !s.styleLoaded
    requires forall i :: 0 <= i < |ops| ==> ops[i] != OnMapChanged(MapChangeDidFinishLoadingStyle)
    ensures !Run(s, ops).state.styleLoaded
    decreases |ops|
  {
    if ops != [] {
      RunTailAvoids(ops);
      StyleStaysUnloadedUntilLoaded(Apply(s, ops[0]).state, ops[1..]);
    }
  }

  lemma RunTailAvoids(ops: seq<Op>)
    requires ops != []
    requires forall i :: 0 <= i < |ops| ==> ops[i] != OnMapChanged(MapChangeDidFinishLoadingStyle)
    ensures forall i :: 0 <= i < |ops[1..]| ==> ops[1..][i] != OnMapChanged(MapChangeDidFinishLoadingStyle)
  {
  }

  /** Switching to a different style marks it as not loaded at once; the engine's "finished
      loading style" notification marks it as loaded, and a URL change of the style itself
      raises StyleNeedsSync again without touching the loaded flag. */
  lemma StyleSwitchLifecycle(s: ViewSpec.ViewState, b: StyleId)
    requires s.style != Some(b)
    ensures !Run(s, [SetStyle(Some(b))]).state.styleLoaded
    ensures Run(s, [SetStyle(Some(b)), OnMapChanged(MapChangeDidFinishLoadingStyle)]).state.styleLoaded
    ensures Run(s, [SetStyle(Some(b)), OnMapChanged(MapChangeDidFinishLoadingStyle), OnStyleChanged]).state.styleLoaded
    ensures Includes(Run(s, [SetStyle(Some(b)), OnMapChanged(MapChangeDidFinishLoadingStyle), OnStyleChanged])
                       .state.syncState, StyleNeedsSync)
    ensures Run(s, [SetStyle(None), SetStyle(None)]).emitted == Run(s, [SetStyle(None)]).emitted
  {
    var t1 := Apply(s, SetStyle(Some(b))).state;
    var t2 := Apply(t1, OnMapChanged(MapChangeDidFinishLoadingStyle)).state;
    assert t2.styleLoaded;
    assert [SetStyle(Some(b)), OnMapChanged(MapChangeDidFinishLoadingStyle)][1..]
        == [OnMapChanged(MapChangeDidFinishLoadingStyle)];
    assert Run(t1, [OnMapChanged(MapChangeDidFinishLoadingStyle)]).state == t2;
    assert Run(t2, [OnStyleChanged]).state.syncState == t2.syncState | StyleNeedsSync;
    RaisingOnlyGains(t2.syncState, StyleNeedsSync);
    assert [SetStyle(Some(b)), OnMapChanged(MapChangeDidFinishLoadingStyle), OnStyleChanged][1..]
        == [OnMapChanged(MapChangeDidFinishLoadingStyle), OnStyleChanged];
    assert [SetStyle(None), SetStyle(None)][1..] == [SetStyle(None)];
  }

  /** pan(10, 5) then pan(3, -2) moves the offset by (13, -3), the vertical sign flipped on
      each call, and two pans accumulate their sum in general. */
  lemma PansAccumulate(s: ViewSpec.ViewState, dx1: int32, dy1: int32, dx2: int32, dy2: int32)
    ensures Run(s, [Pan(dx1, dy1), Pan(dx2, dy2)]).state.pan
            == ViewSpec.Point(s.pan.x + (dx1 as int + dx2 as int) as real,
                              s.pan.y - (dy1 as int + dy2 as int) as real)
    ensures Run(s, [Pan(10, 5), Pan(3, -2)]).state.pan == ViewSpec.Point(s.pan.x + 13.0, s.pan.y - 3.0)
  {
    var t1 := Apply(s, Pan(dx1, dy1)).state;
    assert [Pan(dx1, dy1), Pan(dx2, dy2)][1..] == [Pan(dx2, dy2)];
    assert Run(s, [Pan(dx1, dy1), Pan(dx2, dy2)]).state == Run(t1, [Pan(dx2, dy2)]).state
        == Apply(t1, Pan(dx2, dy2)).state;
    assert [Pan(10, 5), Pan(3, -2)][1..] == [Pan(3, -2)];
  }

  /** setPitch at and beyond both ends of its range. */
  lemma PitchExamples(s: ViewSpec.ViewState)
    ensures Apply(s, SetPitch(-10.0)).state.pitch == 0.0
    ensures Apply(s, SetPitch(0.0)).state.pitch == 0.0
    ensures Apply(s, SetPitch(MaxPitch)).state.pitch == MaxPitch
    ensures Apply(s, SetPitch(MaxPitch + 10.0)).state.pitch == MaxPitch
  {
  }

  /** Running two sequences of calls one after the other is running their concatenation. */
  lemma {:induction false} RunConcat(s: ViewSpec.ViewState, a: seq<Op>, b: seq<Op>)
    ensures Run(s, a + b).state == Run(Run(s, a).state, b).state
    decreases |a|
  {
    if a != [] {
      assert (a + b)[0] == a[0];
      assert (a + b)[1..] == a[1..] + b;
      RunConcat(Apply(s, a[0]).state, a[1..], b);
    } else {
      assert a + b == b;
    }
  }

  /** Running a call then a sequence is running the sequence from that call's state. */
  lemma RunCons(s: ViewSpec.ViewState, op: Op, rest: seq<Op>)
    ensures Run(s, [op] + rest).state == Run(Apply(s, op).state, rest).state
  {
    assert ([op] + rest)[0] == op;
    assert ([op] + rest)[1..] == rest;
  }

  /** Appending parameters extends the list by exactly those parameters, in order. */
  lemma {:induction false} AppendsExtendList(s: ViewSpec.ViewState, params: seq<MapParameter>)
    ensures Run(s, Appends(params)).state.parameters == s.parameters + params
    decreases |params|
  {
    if params != [] {
      var t := ViewSpec.AppendParameter(s, params[0]).state;
      RunCons(s, AppendParameter(params[0]), Appends(params[1..]));
      assert Apply(s, AppendParameter(params[0])).state == t;
      AppendsExtendList(t, params[1..]);
      assert s.parameters + params == t.parameters + params[1..];
    }
  }

  /** Appending parameters then clearing the list leaves it empty, whatever was appended. */
  lemma AppendsThenClearLeaveNothing(s: ViewSpec.ViewState, params: seq<MapParameter>)
    ensures Run(s, Appends(params) + [ClearParameter]).state.parameters == []
    ensures Run(s, Appends(params)).state.parameters == s.parameters + params
  {
    AppendsExtendList(s, params);
    RunConcat(s, Appends(params), [ClearParameter]);
    var u := Run(s, Appends(params)).state;
    assert [ClearParameter][0] == ClearParameter && [ClearParameter][1..] == [];
    assert Run(u, [ClearParameter]).state == Apply(u, ClearParameter).state;
    assert Apply(u, ClearParameter).state == ViewSpec.ClearParameter(u).state;
  }

  /** One appendParameter call per parameter. */
  function Appends(params: seq<MapParameter>): (ops: seq<Op>)
    ensures |ops| == |params|
  {
    if params == [] then [] else [AppendParameter(params[0])] + Appends(params[1..])
  }
}
