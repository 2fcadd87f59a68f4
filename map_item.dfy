/** The QML map item QQuickMapboxGL: its private state as fields updated in place, one
    method per setter and handler, each proved to do what ViewSpec says of it. Redraw
    requests and emitted signals are recorded in the ghost log `events`. */
module MapItem {
  import opened Values
  import opened SyncFlags
  import opened Normalise
  import ViewSpec

  class QQuickMapboxGL {
    var minimumZoomLevel: real
    var maximumZoomLevel: real
    var zoomLevel: real
    var pan: ViewSpec.Point
    var center: Coordinate
    var color: Color
    var layoutChanges: seq<StyleRecord>
    var paintChanges: seq<StyleRecord>
    var style: Option<StyleId>
    var bearing: real
    var pitch: real
    var syncState: SyncMask
    var styleLoaded: bool
    var parameters: seq<MapParameter>

    /** Every update() request and signal, in the order the item made them. */
    ghost var events: seq<Event>

    /** The fields as a ViewSpec value. */
    function State(): ViewSpec.ViewState
      reads this
    {
      ViewSpec.ViewState(minimumZoomLevel, maximumZoomLevel, zoomLevel, pan, center, color,
                         layoutChanges, paintChanges, style, bearing, pitch, syncState,
                         styleLoaded, parameters)
    }

    ghost predicate Valid()
      reads this
    {
      ViewSpec.Valid(State())
    }

    /** The in-class initialisers; `defaultCenter` and `defaultColor` stand for the
        default-constructed QGeoCoordinate and QColor. */
    constructor (defaultCenter: Coordinate, defaultColor: Color)
      ensures Valid()
      ensures State() == ViewSpec.Initial(defaultCenter, defaultColor) && events == []
    {
      minimumZoomLevel, maximumZoomLevel, zoomLevel := 0.0, 20.0, 20.0;
      pan := ViewSpec.Point(0.0, 0.0);
      center, color := defaultCenter, defaultColor;
      layoutChanges, paintChanges := [], [];
      style := None;
      bearing, pitch := 0.0, 0.0;
      syncState := NothingNeedsSync;
      styleLoaded := false;
      parameters := [];
      events := [];
    }

    method SetMinimumZoomLevel(zoom: real)
      requires Valid()
      modifies this
      ensures Valid()
      ensures State() == ViewSpec.SetMinimumZoomLevel(old(State()), zoom).state
      ensures events == old(events) + ViewSpec.SetMinimumZoomLevel(old(State()), zoom).emitted
    {
      var z := QMax(MinZoom, zoom);
      z := QMin(maximumZoomLevel, z);
      if minimumZoomLevel == z {
        return;
      }
      minimumZoomLevel := z;
      SetZoomLevel(zoomLevel);  // constrain the zoom to the new bounds
      events := events + [MinimumZoomLevelChanged];
    }

    method SetMaximumZoomLevel(zoom: real)
      requires Valid()
      modifies this
      ensures Valid()
      ensures State() == ViewSpec.SetMaximumZoomLevel(old(State()), zoom).state
      ensures events == old(events) + ViewSpec.SetMaximumZoomLevel(old(State()), zoom).emitted
    {
      var z := QMin(MaxZoom, zoom);
      z := QMax(minimumZoomLevel, z);
      if maximumZoomLevel == z {
        return;
      }
      maximumZoomLevel := z;
      SetZoomLevel(zoomLevel);  // constrain the zoom to the new bounds
      events := events + [MaximumZoomLevelChanged];
    }

    /** Needs only Consistent: the bound setters call it right after moving a bound past
        the current zoom. */
    method SetZoomLevel(zoom: real)
      requires ViewSpec.Consistent(State())
      modifies this
      ensures Valid()
      ensures State() == ViewSpec.SetZoomLevel(old(State()), zoom).state
      ensures events == old(events) + ViewSpec.SetZoomLevel(old(State()), zoom).emitted
    {
      var z := QMin(maximumZoomLevel, zoom);
      z := QMax(minimumZoomLevel, z);
      if zoomLevel == z {
        return;
      }
      zoomLevel := z;
      syncState := syncState | ZoomNeedsSync;
      events := events + [Update];
      events := events + [ZoomLevelChanged(zoomLevel)];
    }

    method SetCenter(coordinate: Coordinate)
      requires Valid()
      modifies this
      ensures Valid()
      ensures State() == ViewSpec.SetCenter(old(State()), coordinate).state
      ensures events == old(events) + ViewSpec.SetCenter(old(State()), coordinate).emitted
    {
      if center == coordinate {
        return;
      }
      center := coordinate;
      syncState := syncState | CenterNeedsSync;
      events := events + [Update];
      events := events + [CenterChanged(center)];
    }

    method SetColor(newColor: Color)
      requires Valid()
      modifies this
      ensures Valid()
      ensures State() == ViewSpec.SetColor(old(State()), newColor).state
      ensures events == old(events) + ViewSpec.SetColor(old(State()), newColor).emitted
    {
      if color == newColor {
        return;
      }
      color := newColor;
      OnStylePropertyUpdated(BackgroundColorRecord(newColor));
      events := events + [ColorChanged(color)];
    }

    method Pan(dx: int32, dy: int32)
      requires Valid()
      modifies this
      ensures Valid()
      ensures State() == ViewSpec.Pan(old(State()), dx, dy).state
      ensures events == old(events) + ViewSpec.Pan(old(State()), dx, dy).emitted
    {
      pan := ViewSpec.Point(pan.x + dx as real, pan.y + (-(dy as int)) as real);
      syncState := syncState | PanNeedsSync;
      events := events + [Update];
    }

    method SetStyle(newStyle: Option<StyleId>)
      requires Valid()
      modifies this
      ensures Valid()
      ensures State() == ViewSpec.SetStyle(old(State()), newStyle).state
      ensures events == old(events) + ViewSpec.SetStyle(old(State()), newStyle).emitted
    {
      if newStyle == style {
        return;
      }
      style := newStyle;
      syncState := syncState | StyleNeedsSync;
      styleLoaded := false;
      events := events + [Update];
      events := events + [StyleChanged];
    }

    method SetBearing(angle: real)
      requires Valid()
      modifies this
      ensures Valid()
      ensures State() == ViewSpec.SetBearing(old(State()), angle).state
      ensures events == old(events) + ViewSpec.SetBearing(old(State()), angle).emitted
    {
      var a := FMod360(angle);
      if bearing == a {
        return;
      }
      bearing := a;
      syncState := syncState | BearingNeedsSync;
      events := events + [Update];
      events := events + [BearingChanged(bearing)];
    }

    method SetPitch(angle: real)
      requires Valid()
      modifies this
      ensures Valid()
      ensures State() == ViewSpec.SetPitch(old(State()), angle).state
      ensures events == old(events) + ViewSpec.SetPitch(old(State()), angle).emitted
    {
      var a := QMin(QMax(0.0, angle), MaxPitch);
      if pitch == a {
        return;
      }
      pitch := a;
      syncState := syncState | PitchNeedsSync;
      events := events + [Update];
      events := events + [PitchChanged(pitch)];
    }

    method OnMapChanged(change: MapChange)
      requires Valid()
      modifies this
      ensures Valid()
      ensures State() == ViewSpec.OnMapChanged(old(State()), change).state
      ensures events == old(events) + ViewSpec.OnMapChanged(old(State()), change).emitted
    {
      if change == MapChangeDidFinishLoadingStyle {
        styleLoaded := true;
        events := events + [Update];
      }
    }

    method OnStylePropertyUpdated(params: StyleRecord)
      requires Valid()
      modifies this
      ensures Valid()
      ensures State() == ViewSpec.OnStylePropertyUpdated(old(State()), params).state
      ensures events == old(events) + ViewSpec.OnStylePropertyUpdated(old(State()), params).emitted
    {
      if params.typeTag == LayoutType {
        layoutChanges := layoutChanges + [params];
      } else if params.typeTag == PaintType {
        paintChanges := paintChanges + [params];
      }
      events := events + [Update];
    }

    method OnStyleChanged()
      requires Valid()
      modifies this
      ensures Valid()
      ensures State() == ViewSpec.OnStyleChanged(old(State())).state
      ensures events == old(events) + ViewSpec.OnStyleChanged(old(State())).emitted
    {
      syncState := syncState | StyleNeedsSync;
      events := events + [Update];
      events := events + [StyleChanged];
    }

    method AppendParameter(param: MapParameter)
      requires Valid()
      modifies this
      ensures Valid()
      ensures State() == ViewSpec.AppendParameter(old(State()), param).state
      ensures events == old(events)
    {
      parameters := parameters + [param];
    }

    /** The length of the parameter list. */
    method CountParameters() returns (count: int)
      ensures count == |parameters|
    {
      count := |parameters|;
    }

    /** The parameter at `index`; QList's operator[] demands a valid index. */
    method ParameterAt(index: int) returns (param: MapParameter)
      requires 0 <= index < |parameters|
      ensures param == parameters[index]
    {
      param := parameters[index];
    }

    method ClearParameter()
      requires Valid()
      modifies this
      ensures Valid()
      ensures State() == ViewSpec.ClearParameter(old(State())).state
      ensures events == old(events)
    {
      parameters := [];
    }
  }

  /** A usage check, not part of the item: a client that sees the class only through its
      contracts. The zoom invariant holds after every write, writing back the current zoom
      is silent, and pan keeps adding. */
  method ZoomAndPanClient(c: Coordinate, k: Color, z: real, m: real)
  {
    var item := new QQuickMapboxGL(c, k);
    item.SetZoomLevel(z);
    assert item.minimumZoomLevel <= item.zoomLevel <= item.maximumZoomLevel;
    item.SetMinimumZoomLevel(m);
    assert MinZoom <= item.minimumZoomLevel <= item.zoomLevel <= item.maximumZoomLevel <= MaxZoom;
    var before := item.events;
    item.SetZoomLevel(item.zoomLevel);
    assert item.events == before;
    item.Pan(10, 5);
    item.Pan(3, -2);
    assert item.pan == ViewSpec.Point(13.0, -3.0);
    assert Includes(item.syncState, PanNeedsSync);
  }
}
