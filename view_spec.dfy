/** The map item's desired view state as a value, and what each setter and handler of
    QQuickMapboxGL does to it: the new state and the notifications (redraw requests and
    signals) it emits, in order. The class in map_item.dfy is proved against these. */
module ViewSpec {
  import opened Values
  import opened SyncFlags
  import opened Normalise

  /** A QPointF. */
  datatype Point = Point(x: real, y: real)

  /** The private members of QQuickMapboxGL that the setters update. */
  datatype ViewState = ViewState(
    minimumZoomLevel: real,
    maximumZoomLevel: real,
    zoomLevel: real,
    pan: Point,
    center: Coordinate,
    color: Color,
    layoutChanges: seq<StyleRecord>,
    paintChanges: seq<StyleRecord>,
    style: Option<StyleId>,
    bearing: real,
    pitch: real,
    syncState: SyncMask,
    styleLoaded: bool,
    parameters: seq<MapParameter>)

  /** The outcome of one call: the new state and what the call emitted. */
  datatype Step = Step(state: ViewState, emitted: seq<Event>)

  /** Everything the item keeps true except that the current zoom lies within its bounds;
      setZoomLevel needs only this much and restores the rest. */
  predicate Consistent(s: ViewState) {
    MinZoom <= s.minimumZoomLevel <= s.maximumZoomLevel <= MaxZoom
    && 0.0 <= s.pitch <= MaxPitch
    && -360.0 < s.bearing < 360.0
    && OnlyKnownFlags(s.syncState)
  }

  /** The item's invariant: MIN_ZOOM <= minimum <= zoom <= maximum <= MAX_ZOOM, a pitch in
      range, a bearing as fmod leaves it, and only SyncState flags in the mask. */
  predicate Valid(s: ViewState) {
    Consistent(s) && s.minimumZoomLevel <= s.zoomLevel <= s.maximumZoomLevel
  }

  /** The state right after construction: the in-class initialisers of the header. The
      centre and colour are whatever QGeoCoordinate() and QColor() construct. */
  function Initial(center: Coordinate, color: Color): (s: ViewState)
    ensures Valid(s)
    ensures s.syncState == NothingNeedsSync && !s.styleLoaded && s.style == None
    ensures s.bearing == 0.0 && s.pitch == 0.0 && s.pan == Point(0.0, 0.0)
    ensures s.layoutChanges == [] && s.paintChanges == [] && s.parameters == []
  {
    ViewState(0.0, 20.0, 20.0, Point(0.0, 0.0), center, color, [], [], None, 0.0, 0.0,
              NothingNeedsSync, false, [])
  }

  /** setZoomLevel: clamp into [minimum, maximum]; if that is the stored zoom nothing happens,
      otherwise store it, raise ZoomNeedsSync, request a redraw and signal the new zoom. */
  function SetZoomLevel(s: ViewState, zoom: real): (t: Step)
    ensures RaisesAtMost(s.syncState, t.state.syncState, ZoomNeedsSync)
    ensures s.minimumZoomLevel <= s.maximumZoomLevel
            ==> IsClamped(t.state.zoomLevel, zoom, s.minimumZoomLevel, s.maximumZoomLevel)
    ensures Consistent(s) ==> Valid(t.state)
    ensures t.emitted == [] <==> t.state.zoomLevel == s.zoomLevel
    ensures t.emitted == [] ==> t.state == s
    ensures t.emitted != [] ==> t.emitted == [Update, ZoomLevelChanged(t.state.zoomLevel)]
                                && t.state.syncState == s.syncState | ZoomNeedsSync
    ensures t.state.(zoomLevel := s.zoomLevel, syncState := s.syncState) == s
  {
    var z := NormaliseZoom(zoom, s.minimumZoomLevel, s.maximumZoomLevel);
    if s.zoomLevel == z then Step(s, [])
    else
      RaisingKeepsKnownFlags(s.syncState, ZoomNeedsSync);
      Step(s.(zoomLevel := z, syncState := s.syncState | ZoomNeedsSync),
           [Update, ZoomLevelChanged(z)])
  }

  /** setMinimumZoomLevel: clamp into [MIN_ZOOM, maximum]; if unchanged nothing happens,
      otherwise store it, re-run setZoomLevel on the current zoom (which raises the zoom to
      the new minimum if it fell below it) and signal. It raises no flag of its own. */
  function SetMinimumZoomLevel(s: ViewState, zoom: real): (t: Step)
    ensures MinZoom <= s.maximumZoomLevel
            ==> IsClamped(t.state.minimumZoomLevel, zoom, MinZoom, s.maximumZoomLevel)
    ensures Valid(s) ==> Valid(t.state)
    ensures Valid(s) ==> t.state.zoomLevel == QMax(s.zoomLevel, t.state.minimumZoomLevel)
    ensures t.state.minimumZoomLevel == s.minimumZoomLevel ==> t == Step(s, [])
    ensures t.state.minimumZoomLevel != s.minimumZoomLevel
            ==> t.emitted == (if t.state.zoomLevel == s.zoomLevel then []
                              else [Update, ZoomLevelChanged(t.state.zoomLevel)])
                             + [MinimumZoomLevelChanged]
    ensures t.state.syncState == if t.state.zoomLevel == s.zoomLevel then s.syncState
                                 else s.syncState | ZoomNeedsSync
    ensures t.state.(minimumZoomLevel := s.minimumZoomLevel, zoomLevel := s.zoomLevel,
                     syncState := s.syncState) == s
  {
    var m := NormaliseMinimumZoom(zoom, s.maximumZoomLevel);
    if s.minimumZoomLevel == m then Step(s, [])
    else
      var c := SetZoomLevel(s.(minimumZoomLevel := m), s.zoomLevel);
      Step(c.state, c.emitted + [MinimumZoomLevelChanged])
  }

  /** setMaximumZoomLevel: clamp into [minimum, MAX_ZOOM]; if unchanged nothing happens,
      otherwise store it, re-run setZoomLevel (which lowers the zoom to the new maximum if it
      rose above it) and signal. It raises no flag of its own. */
  function SetMaximumZoomLevel(s: ViewState, zoom: real): (t: Step)
    ensures s.minimumZoomLevel <= MaxZoom
            ==> IsClamped(t.state.maximumZoomLevel, zoom, s.minimumZoomLevel, MaxZoom)
    ensures Valid(s) ==> Valid(t.state)
    ensures Valid(s) ==> t.state.zoomLevel == QMin(s.zoomLevel, t.state.maximumZoomLevel)
    ensures t.state.maximumZoomLevel == s.maximumZoomLevel ==> t == Step(s, [])
    ensures t.state.maximumZoomLevel != s.maximumZoomLevel
            ==> t.emitted == (if t.state.zoomLevel == s.zoomLevel then []
                              else [Update, ZoomLevelChanged(t.state.zoomLevel)])
                             + [MaximumZoomLevelChanged]
    ensures t.state.syncState == if t.state.zoomLevel == s.zoomLevel then s.syncState
                                 else s.syncState | ZoomNeedsSync
    ensures t.state.(maximumZoomLevel := s.maximumZoomLevel, zoomLevel := s.zoomLevel,
                     syncState := s.syncState) == s
  {
    var m := NormaliseMaximumZoom(zoom, s.minimumZoomLevel);
    if s.maximumZoomLevel == m then Step(s, [])
    else
      var c := SetZoomLevel(s.(maximumZoomLevel := m), s.zoomLevel);
      Step(c.state, c.emitted + [MaximumZoomLevelChanged])
  }

  /** setCenter: a no-op for an equal coordinate; otherwise store, raise CenterNeedsSync,
      request a redraw and signal. */
  function SetCenter(s: ViewState, center: Coordinate): (t: Step)
    ensures RaisesAtMost(s.syncState, t.state.syncState, CenterNeedsSync)
    ensures t.state.center == center
    ensures Valid(s) ==> Valid(t.state)
    ensures t.emitted == [] <==> s.center == center
    ensures t.emitted == [] ==> t.state == s
    ensures t.emitted != [] ==> t.emitted == [Update, CenterChanged(center)]
                                && t.state.syncState == s.syncState | CenterNeedsSync
    ensures t.state.(center := s.center, syncState := s.syncState) == s
  {
    if s.center == center then Step(s, [])
    else
      RaisingKeepsKnownFlags(s.syncState, CenterNeedsSync);
      Step(s.(center := center, syncState := s.syncState | CenterNeedsSync),
           [Update, CenterChanged(center)])
  }

  /** onStylePropertyUpdated: a layout record goes to the end of layoutChanges, a paint record
      to the end of paintChanges, any other type is dropped; a redraw is always requested
      and the mask is never touched. */
  function OnStylePropertyUpdated(s: ViewState, record: StyleRecord): (t: Step)
    ensures RaisesAtMost(s.syncState, t.state.syncState, NothingNeedsSync)
    ensures t.state.layoutChanges
            == if record.typeTag == LayoutType then s.layoutChanges + [record] else s.layoutChanges
    ensures t.state.paintChanges
            == if record.typeTag == PaintType then s.paintChanges + [record] else s.paintChanges
    ensures t.state.(layoutChanges := s.layoutChanges, paintChanges := s.paintChanges) == s
    ensures t.emitted == [Update]
  {
    var u :=
      if record.typeTag == LayoutType then s.(layoutChanges := s.layoutChanges + [record])
      else if record.typeTag == PaintType then s.(paintChanges := s.paintChanges + [record])
      else s;
    Step(u, [Update])
  }

  /** setColor: a no-op for an equal colour; otherwise store it and hand exactly one paint
      record for the background colour to onStylePropertyUpdated, then signal. No flag is
      raised: the render pass learns of the colour through paintChanges. */
  function SetColor(s: ViewState, color: Color): (t: Step)
    ensures RaisesAtMost(s.syncState, t.state.syncState, NothingNeedsSync)
    ensures t.state.color == color
    ensures s.color == color ==> t == Step(s, [])
    ensures s.color != color
            ==> t.state.paintChanges == s.paintChanges + [BackgroundColorRecord(color)]
                && t.emitted == [Update, ColorChanged(color)]
    ensures t.state.(color := s.color, paintChanges := s.paintChanges) == s
  {
    if s.color == color then Step(s, [])
    else
      var d := OnStylePropertyUpdated(s.(color := color), BackgroundColorRecord(color));
      Step(d.state, d.emitted + [ColorChanged(color)])
  }

  /** pan: add (dx, -dy) to the accumulated offset, the vertical axis flipped, raise
      PanNeedsSync and request a redraw, whether or not the delta is zero. */
  function Pan(s: ViewState, dx: int32, dy: int32): (t: Step)
    ensures RaisesAtMost(s.syncState, t.state.syncState, PanNeedsSync)
    ensures t.state.pan.x - s.pan.x == dx as real
    ensures t.state.pan.y - s.pan.y == -(dy as real)
    ensures t.state.syncState == s.syncState | PanNeedsSync
    ensures Valid(s) ==> Valid(t.state)
    ensures t.emitted == [Update]
    ensures t.state.(pan := s.pan, syncState := s.syncState) == s
  {
    RaisingKeepsKnownFlags(s.syncState, PanNeedsSync);
    var delta := Point(dx as real, (-(dy as int)) as real);
    Step(s.(pan := Point(s.pan.x + delta.x, s.pan.y + delta.y),
            syncState := s.syncState | PanNeedsSync),
         [Update])
  }

  /** setStyle: a no-op for the same style (null included); otherwise adopt the new one,
      even a null one, raise StyleNeedsSync, mark the style as not loaded, request a redraw
      and signal. */
  function SetStyle(s: ViewState, style: Option<StyleId>): (t: Step)
    ensures RaisesAtMost(s.syncState, t.state.syncState, StyleNeedsSync)
    ensures t.state.style == style
    ensures Valid(s) ==> Valid(t.state)
    ensures t.emitted == [] <==> s.style == style
    ensures t.emitted == [] ==> t.state == s
    ensures t.emitted != [] ==> t.emitted == [Update, StyleChanged]
                                && t.state.syncState == s.syncState | StyleNeedsSync
                                && !t.state.styleLoaded
    ensures t.state.(style := s.style, syncState := s.syncState, styleLoaded := s.styleLoaded) == s
  {
    if s.style == style then Step(s, [])
    else
      RaisingKeepsKnownFlags(s.syncState, StyleNeedsSync);
      Step(s.(style := style, syncState := s.syncState | StyleNeedsSync, styleLoaded := false),
           [Update, StyleChanged])
  }

  /** setBearing: store fmod(angle, 360) if it differs from the stored bearing, raising
      BearingNeedsSync, requesting a redraw and signalling. */
  function SetBearing(s: ViewState, angle: real): (t: Step)
    ensures RaisesAtMost(s.syncState, t.state.syncState, BearingNeedsSync)
    ensures IsFModResult(angle, t.state.bearing)
    ensures Valid(s) ==> Valid(t.state)
    ensures t.emitted == [] <==> t.state.bearing == s.bearing
    ensures t.emitted == [] ==> t.state == s
    ensures t.emitted != [] ==> t.emitted == [Update, BearingChanged(t.state.bearing)]
                                && t.state.syncState == s.syncState | BearingNeedsSync
    ensures t.state.(bearing := s.bearing, syncState := s.syncState) == s
  {
    var a := FMod360(angle);
    if s.bearing == a then Step(s, [])
    else
      RaisingKeepsKnownFlags(s.syncState, BearingNeedsSync);
      Step(s.(bearing := a, syncState := s.syncState | BearingNeedsSync),
           [Update, BearingChanged(a)])
  }

  /** setPitch: store the angle clamped into [0, PITCH_MAX * RAD2DEG] if it differs from the
      stored pitch, raising PitchNeedsSync, requesting a redraw and signalling. */
  function SetPitch(s: ViewState, angle: real): (t: Step)
    ensures RaisesAtMost(s.syncState, t.state.syncState, PitchNeedsSync)
    ensures IsClamped(t.state.pitch, angle, 0.0, MaxPitch)
    ensures Valid(s) ==> Valid(t.state)
    ensures t.emitted == [] <==> t.state.pitch == s.pitch
    ensures t.emitted == [] ==> t.state == s
    ensures t.emitted != [] ==> t.emitted == [Update, PitchChanged(t.state.pitch)]
                                && t.state.syncState == s.syncState | PitchNeedsSync
    ensures t.state.(pitch := s.pitch, syncState := s.syncState) == s
  {
    var a := NormalisePitch(angle);
    if s.pitch == a then Step(s, [])
    else
      RaisingKeepsKnownFlags(s.syncState, PitchNeedsSync);
      Step(s.(pitch := a, syncState := s.syncState | PitchNeedsSync),
           [Update, PitchChanged(a)])
  }

  /** onMapChanged: only MapChangeDidFinishLoadingStyle matters; it marks the style as
      loaded and requests a redraw. Every other change is ignored. */
  function OnMapChanged(s: ViewState, change: MapChange): (t: Step)
    ensures RaisesAtMost(s.syncState, t.state.syncState, NothingNeedsSync)
    ensures change == MapChangeDidFinishLoadingStyle
            ==> t == Step(s.(styleLoaded := true), [Update])
    ensures change != MapChangeDidFinishLoadingStyle ==> t == Step(s, [])
  {
    if change == MapChangeDidFinishLoadingStyle then Step(s.(styleLoaded := true), [Update])
    else Step(s, [])
  }

  /** onStyleChanged (the style's URL changed): raise StyleNeedsSync, request a redraw and
      signal, leaving styleLoaded as it is. */
  function OnStyleChanged(s: ViewState): (t: Step)
    ensures RaisesAtMost(s.syncState, t.state.syncState, StyleNeedsSync)
    ensures t.state.syncState == s.syncState | StyleNeedsSync
    ensures Valid(s) ==> Valid(t.state)
    ensures t.emitted == [Update, StyleChanged]
    ensures t.state.(syncState := s.syncState) == s
  {
    RaisingKeepsKnownFlags(s.syncState, StyleNeedsSync);
    Step(s.(syncState := s.syncState | StyleNeedsSync), [Update, StyleChanged])
  }

  /** appendParameter: the parameter list grows by one at its end. */
  function AppendParameter(s: ViewState, param: MapParameter): (t: Step)
    ensures RaisesAtMost(s.syncState, t.state.syncState, NothingNeedsSync)
    ensures |t.state.parameters| == |s.parameters| + 1
    ensures t.state.parameters[..|s.parameters|] == s.parameters
    ensures t.state.parameters[|s.parameters|] == param
    ensures t.state.(parameters := s.parameters) == s && t.emitted == []
  {
    Step(s.(parameters := s.parameters + [param]), [])
  }

  /** clearParameter: the parameter list becomes empty. */
  function ClearParameter(s: ViewState): (t: Step)
    ensures RaisesAtMost(s.syncState, t.state.syncState, NothingNeedsSync)
    ensures |t.state.parameters| == 0
    ensures t.state.(parameters := s.parameters) == s && t.emitted == []
  {
    Step(s.(parameters := []), [])
  }
}
