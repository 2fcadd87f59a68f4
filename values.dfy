/** The values the map item stores and passes around, reduced to what the item itself
    inspects: equality, and the type tag of a style-property record. */
module Values {

  /** A QGeoCoordinate; the item only compares coordinates for equality. */
  type Coordinate(==)

  /** A QColor; the item only compares colours for equality. */
  type Color(==)

  /** The identity of a QQuickMapboxGLStyle object (the address the item stores in m_style). */
  type StyleId(==)

  /** A QQuickMapboxGLMapParameter object held in the item's parameter list. */
  type MapParameter(==)

  /** A QVariant payload other than a colour. */
  type OpaqueValue(==)

  datatype Option<T> = None | Some(value: T)

  /** The 32-bit `int` of the pan deltas. */
  newtype int32 = x: int | -0x8000_0000 <= x < 0x8000_0000

  /** The "value" entry of a style-property record. */
  datatype Variant = ColorValue(color: Color) | OtherValue(payload: OpaqueValue)

  /** A style-property record (the QVariantMap a style property emits). `typeTag` is what
      `params.value("type").toInt()` reads; "layer", "property" and "value" are carried along. */
  datatype StyleRecord = StyleRecord(typeTag: int, layer: string, property: string, value: Variant)

  /** QQuickMapboxGLStyleProperty::Type. */
  const LayoutType: int := 0
  const PaintType: int := 1

  /** The record setColor synthesises for a new background colour. */
  function BackgroundColorRecord(color: Color): (r: StyleRecord)
    ensures r.typeTag == PaintType && r.value == ColorValue(color)
  {
    StyleRecord(PaintType, "background", "background-color", ColorValue(color))
  }

  /** The QMapbox::MapChange notification the engine delivers; only one kind matters here. */
  datatype MapChange = MapChangeDidFinishLoadingStyle | OtherMapChange(code: int)

  /** What the item makes observable: a redraw request (`update()`) or one of its signals. */
  datatype Event =
    | Update
    | MinimumZoomLevelChanged
    | MaximumZoomLevelChanged
    | ZoomLevelChanged(zoom: real)
    | CenterChanged(center: Coordinate)
    | ColorChanged(color: Color)
    | StyleChanged
    | BearingChanged(angle: real)
    | PitchChanged(angle: real)
}
