# QQuickMapboxGL property synchronisation, in Dafny

This project models the state machine inside the QML map item `QQuickMapboxGL` of the
Mapbox GL Qt platform layer. The item holds the desired view of the map: minimum, maximum
and current zoom, centre, background colour, style, bearing, pitch, an accumulated pan
offset, two pending lists of style-property records and a list of map parameters.

Most setters follow one pattern. The zoom setters clamp their input, the bearing setter
applies `fmod` and the pitch setter clamps; `setCenter`, `setColor` and `setStyle` take the
value as it is. The setter then returns early if the value equals the stored one. Otherwise
it stores the value and, for zoom, centre, style, bearing and pitch, ORs one bit into the
dirty mask `m_syncState`, requests a redraw and emits a change signal. There are
exceptions:

- `setMinimumZoomLevel` and `setMaximumZoomLevel` raise no flag of their own. They re-run
  `setZoomLevel`, which raises `ZoomNeedsSync` and requests a redraw only if the zoom
  moved, and then emit their own signal.
- `setColor` raises no flag. It hands one background-colour paint record to the
  style-property handler, which requests the redraw.
- `pan` has no early return: it always raises `PanNeedsSync` and requests a redraw.

A later render pass, not part of this model, reads and drains the mask.

Files:

- `sync_flags.dfy` (`SyncFlags`): the `SyncState` flags as bits of a 32-bit mask.
- `values.dfy` (`Values`): the values the item passes around. Coordinates, colours, styles
  and map parameters are opaque types with equality. A style-property record carries its
  type tag. The ghost event log uses one `Event` per redraw request and per signal.
- `normalise.dfy` (`Normalise`): `qMin`/`qMax`, the three zoom clamps, the pitch clamp and
  `fmod(angle, 360)`. The fmod is proved to meet section 7.12.10.1 of ISO C11 and shown to
  be the only value that does.
- `view_spec.dfy` (`ViewSpec`): the item's state as a value. It has one function per setter
  and handler, returning the new state and the events emitted, in order. Each function's
  contract says what the call means: the clamp, the no-op on an unchanged value, exactly
  which flag is raised, and what is left unchanged.
- `traces.dfy` (`Traces`): any sequence of calls. It proves the invariant
  `MIN_ZOOM <= minimum <= zoom <= maximum <= MAX_ZOOM`, that the mask only gains bits, the
  style-loaded lifecycle, and the worked examples (pans, pitch, style switches,
  parameter lists).
- `map_item.dfy` (`MapItem`): the class `QQuickMapboxGL`. Its fields mirror the private
  members and its methods update them in place, in the order the source does. The bound
  setters re-enter `SetZoomLevel`. Each method that changes the item is proved to produce
  the state and events of its `ViewSpec` function. `CountParameters` and `ParameterAt`
  only read the list and are specified directly against it. `ZoomAndPanClient` is a usage
  check, not part of the item: it is a client that relies only on the class's contracts.

`MIN_ZOOM`, `MAX_ZOOM` and `PITCH_MAX * RAD2DEG` come from `mbgl/util/constants.hpp`, which
is not part of this model. They are constants about which only the initial state's needs
are known: `MIN_ZOOM <= 0`, `20 <= MAX_ZOOM` and a pitch maximum of at least 0.

A bearing is often thought of as lying in `[0, 360)`. The item does not wrap it there: it
applies `std::fmod`, which keeps the sign of a negative angle (`FMod360(-45.0) == -45.0`).
The model follows the code.

## Model

| member | source | states |
|---|---|---|
| SyncFlags.FlagsAreDistinctSingleBits | platform/qt/include/qquickmapboxgl.hpp:72-80 | `NothingNeedsSync` is 0. The six flags are single bits, pairwise disjoint, and together form `AllFlags`. |
| SyncFlags.RaisingOnlyGains | platform/qt/src/qquickmapboxgl.cpp:84 | `mask \|= flag` keeps every bit already set and sets `flag`. |
| SyncFlags.RaisingKeepsKnownFlags | platform/qt/include/qquickmapboxgl.hpp:72-80 | Raising one of the six flags sets no bit outside them. |
| Normalise.NormaliseZoom | platform/qt/src/qquickmapboxgl.cpp:75-76 | `qMax(min, qMin(max, z))` is never below `min`, and it is `z` clamped into `[min, max]` whenever `min <= max`. |
| Normalise.NormaliseMinimumZoom | platform/qt/src/qquickmapboxgl.cpp:35-36 | It is never above the current maximum. It is the input clamped into `[MIN_ZOOM, max]` whenever that interval is non-empty. |
| Normalise.NormaliseMaximumZoom | platform/qt/src/qquickmapboxgl.cpp:55-56 | It is never below the current minimum. It is the input clamped into `[min, MAX_ZOOM]` whenever that interval is non-empty. |
| Normalise.NormalisePitch | platform/qt/src/qquickmapboxgl.cpp:206 | The result is the angle clamped into `[0, PITCH_MAX * RAD2DEG]`. |
| Normalise.FMod360 | platform/qt/src/qquickmapboxgl.cpp:185 | `fmod(a, 360)` differs from `a` by a whole multiple of 360. It lies strictly between -360 and 360 and has the sign of `a` (ISO C11 section 7.12.10.1). |
| Normalise.FModResultIsUnique | platform/qt/src/qquickmapboxgl.cpp:185 | Any value meeting the C11 conditions equals `FMod360(a)`, so the model is the fmod. |
| Normalise.FMod360Idempotent | platform/qt/src/qquickmapboxgl.cpp:185-189 | Normalising a stored bearing again leaves it unchanged. |
| Normalise.FMod360Examples | platform/qt/src/qquickmapboxgl.cpp:185 | 0, 360 and 720 give 0; -45 gives -45 (not 315); -400 gives -40; 370 gives 10. |
| ViewSpec.Initial | platform/qt/include/qquickmapboxgl.hpp:106-123 | The initial state (minimum 0, maximum 20, zoom 20, no style, bearing and pitch 0, empty mask, style not loaded, empty lists) satisfies the invariant. |
| ViewSpec.SetZoomLevel | platform/qt/src/qquickmapboxgl.cpp:73-88 | The stored zoom is the input clamped into `[min, max]`. The call emits nothing exactly when the zoom is unchanged, and then the state is unchanged. Otherwise it emits a redraw then `zoomLevelChanged(z)` and ORs in `ZoomNeedsSync`. Nothing else changes. It restores the invariant from a merely consistent state. |
| ViewSpec.SetMinimumZoomLevel | platform/qt/src/qquickmapboxgl.cpp:33-46 | The minimum is the input clamped into `[MIN_ZOOM, max]`. An unchanged minimum makes the call a no-op. Otherwise the cascade raises the zoom to the new minimum only if it fell below it. The events are the zoom's, if any, then `minimumZoomLevelChanged`. `ZoomNeedsSync` is raised only when the zoom moved. The invariant is preserved. |
| ViewSpec.SetMaximumZoomLevel | platform/qt/src/qquickmapboxgl.cpp:53-66 | The mirror image for the maximum, clamped into `[min, MAX_ZOOM]`. The cascade lowers the zoom to the new maximum only if it rose above it. |
| ViewSpec.SetCenter | platform/qt/src/qquickmapboxgl.cpp:95-107 | The centre becomes the argument. The call is silent and changes nothing exactly when the coordinate is equal to the stored one. Otherwise it raises `CenterNeedsSync`, requests a redraw and signals. |
| ViewSpec.OnStylePropertyUpdated | platform/qt/src/qquickmapboxgl.cpp:254-266 | A layout record is appended only to `layoutChanges` and a paint record only to `paintChanges`. Other types are dropped. The mask and all else are untouched, and a redraw is always requested. |
| ViewSpec.SetColor | platform/qt/src/qquickmapboxgl.cpp:124-140 | A new colour appends exactly one paint record `{background, background-color, colour}`, then requests a redraw and signals. It raises no flag. An equal colour is a no-op. |
| ViewSpec.Pan | platform/qt/src/qquickmapboxgl.cpp:147-153 | The offset moves by `(dx, -dy)`. `PanNeedsSync` is raised and a redraw requested even for a zero delta. Nothing else changes. |
| ViewSpec.SetStyle | platform/qt/src/qquickmapboxgl.cpp:155-176 | The same style, null included, is a no-op. A different one, even null, is adopted, raises `StyleNeedsSync`, clears `styleLoaded`, requests a redraw and signals. |
| ViewSpec.SetBearing | platform/qt/src/qquickmapboxgl.cpp:183-197 | The stored bearing is `fmod(angle, 360)`. The call is silent and changes nothing exactly when that equals the stored bearing. Otherwise it raises `BearingNeedsSync` only. |
| ViewSpec.SetPitch | platform/qt/src/qquickmapboxgl.cpp:204-218 | The stored pitch is the angle clamped into `[0, PITCH_MAX * RAD2DEG]`. The call is silent exactly when that is unchanged. Otherwise it raises `PitchNeedsSync` only. |
| ViewSpec.OnMapChanged | platform/qt/src/qquickmapboxgl.cpp:246-252 | `MapChangeDidFinishLoadingStyle` sets `styleLoaded` and requests a redraw. Every other change leaves the state and the log alone. |
| ViewSpec.OnStyleChanged | platform/qt/src/qquickmapboxgl.cpp:268-274 | It raises `StyleNeedsSync`, requests a redraw and signals `styleChanged`, leaving `styleLoaded` and everything else as it was. |
| ViewSpec.AppendParameter | platform/qt/src/qquickmapboxgl.cpp:276-280 | The list grows by one, the old list is its prefix and the new parameter is last. |
| ViewSpec.ClearParameter | platform/qt/src/qquickmapboxgl.cpp:294-300 | The list becomes empty and nothing else changes. |
| Traces.ApplyRaisesOnlyItsFlag | platform/qt/src/qquickmapboxgl.cpp:73-274 | Every call either leaves the mask alone or ORs in exactly its own flag: zoom setters `ZoomNeedsSync`, `setCenter` `CenterNeedsSync`, and so on. `setColor`, the two handlers of engine and style-property notifications, and the parameter operations raise none. |
| Traces.ZoomWritesRaiseOnlyZoom | platform/qt/src/qquickmapboxgl.cpp:33-88 | The three zoom setters raise at most `ZoomNeedsSync`; the bound setters only through the cascade. |
| Traces.PropertyWritesRaiseOnlyTheirFlag | platform/qt/src/qquickmapboxgl.cpp:95-218 | `setCenter`, `setStyle`, `setBearing` and `setPitch` raise at most their own flag; `setColor` raises none. |
| Traces.HandlersRaiseOnlyTheirFlag | platform/qt/src/qquickmapboxgl.cpp:147-274 | `pan` raises at most `PanNeedsSync` and `onStyleChanged` at most `StyleNeedsSync`. `onMapChanged` and `onStylePropertyUpdated` leave the mask alone. |
| Traces.ParameterListLeavesMask | platform/qt/src/qquickmapboxgl.cpp:276-300 | `appendParameter` and `clearParameter` leave the mask unchanged. |
| Traces.ApplyNeverClearsBits | platform/qt/include/qquickmapboxgl.hpp:122-125 | No call of the item clears a bit of the mask. |
| Traces.DirtyingRequestsRedraw | platform/qt/src/qquickmapboxgl.cpp:84-85 | A call that changes the mask also requests a redraw. |
| Traces.ApplyKeepsInvariant | platform/qt/src/qquickmapboxgl.cpp:33-218 | Every call preserves the invariant, including the bound setters through their zoom cascade. |
| Traces.RunKeepsInvariant | platform/qt/src/qquickmapboxgl.cpp:33-88 | Along any sequence of calls the invariant holds and the mask keeps every bit it had. |
| Traces.ReachableStatesAreValid | platform/qt/include/qquickmapboxgl.hpp:106-108 | Every state reachable from construction satisfies `MIN_ZOOM <= min <= zoom <= max <= MAX_ZOOM`. |
| Traces.SilentCallsChangeNothing | platform/qt/src/qquickmapboxgl.cpp:73-274 | A property write or notification that emits nothing has changed nothing. |
| Traces.WritingCurrentValueIsNoOp | platform/qt/src/qquickmapboxgl.cpp:33-218 | Writing back the current minimum, maximum, zoom, centre, colour, style, bearing or pitch changes no state, raises no flag and emits nothing. |
| Traces.StyleStaysUnloadedUntilLoaded | platform/qt/src/qquickmapboxgl.cpp:246-252 | Once `styleLoaded` is false, only `MapChangeDidFinishLoadingStyle` can make it true. |
| Traces.StyleSwitchLifecycle | platform/qt/src/qquickmapboxgl.cpp:155-176 | Switching to another style clears `styleLoaded`. The finished-loading notification sets it. A later URL change raises `StyleNeedsSync` and keeps it loaded. Setting the style to null twice emits the same events as setting it once, so the second call is silent. If the style is already null, neither call emits anything. |
| Traces.PansAccumulate | platform/qt/src/qquickmapboxgl.cpp:147-153 | Two pans move the offset by the sum of their deltas. `pan(10, 5)` then `pan(3, -2)` moves it by `(13, -3)`. |
| Traces.PitchExamples | platform/qt/src/qquickmapboxgl.cpp:206 | -10 and 0 store 0. The maximum and the maximum plus 10 store the maximum. |
| Traces.AppendsExtendList | platform/qt/src/qquickmapboxgl.cpp:276-280 | Appending parameters one call at a time extends the list by exactly those parameters, in order. |
| Traces.AppendsThenClearLeaveNothing | platform/qt/src/qquickmapboxgl.cpp:276-300 | Appending parameters extends the list by exactly them, in order; clearing afterwards leaves it empty. |
| MapItem.QQuickMapboxGL.constructor | platform/qt/include/qquickmapboxgl.hpp:105-123 | The fields start at the header's initial values, with an empty event log, and the invariant holds. |
| MapItem.QQuickMapboxGL.SetMinimumZoomLevel | platform/qt/src/qquickmapboxgl.cpp:33-46 | The in-place update, including the re-entrant `SetZoomLevel`, yields `ViewSpec.SetMinimumZoomLevel`'s state and events and keeps the invariant. |
| MapItem.QQuickMapboxGL.SetMaximumZoomLevel | platform/qt/src/qquickmapboxgl.cpp:53-66 | It yields `ViewSpec.SetMaximumZoomLevel`'s state and events and keeps the invariant. |
| MapItem.QQuickMapboxGL.SetZoomLevel | platform/qt/src/qquickmapboxgl.cpp:73-88 | From any consistent state, even one whose zoom lies outside its bounds, it yields `ViewSpec.SetZoomLevel`'s state and events and establishes the invariant. |
| MapItem.QQuickMapboxGL.SetCenter | platform/qt/src/qquickmapboxgl.cpp:95-107 | It yields `ViewSpec.SetCenter`'s state and events. |
| MapItem.QQuickMapboxGL.SetColor | platform/qt/src/qquickmapboxgl.cpp:124-140 | It routes the background record through `OnStylePropertyUpdated` and yields `ViewSpec.SetColor`'s state and events. |
| MapItem.QQuickMapboxGL.Pan | platform/qt/src/qquickmapboxgl.cpp:147-153 | It yields `ViewSpec.Pan`'s state and events. |
| MapItem.QQuickMapboxGL.SetStyle | platform/qt/src/qquickmapboxgl.cpp:155-176 | It yields `ViewSpec.SetStyle`'s state and events. |
| MapItem.QQuickMapboxGL.SetBearing | platform/qt/src/qquickmapboxgl.cpp:183-197 | It yields `ViewSpec.SetBearing`'s state and events. |
| MapItem.QQuickMapboxGL.SetPitch | platform/qt/src/qquickmapboxgl.cpp:204-218 | It yields `ViewSpec.SetPitch`'s state and events. |
| MapItem.QQuickMapboxGL.OnMapChanged | platform/qt/src/qquickmapboxgl.cpp:246-252 | It yields `ViewSpec.OnMapChanged`'s state and events. |
| MapItem.QQuickMapboxGL.OnStylePropertyUpdated | platform/qt/src/qquickmapboxgl.cpp:254-266 | It yields `ViewSpec.OnStylePropertyUpdated`'s state and events. |
| MapItem.QQuickMapboxGL.OnStyleChanged | platform/qt/src/qquickmapboxgl.cpp:268-274 | It yields `ViewSpec.OnStyleChanged`'s state and events. |
| MapItem.QQuickMapboxGL.AppendParameter | platform/qt/src/qquickmapboxgl.cpp:276-280 | It yields `ViewSpec.AppendParameter`'s state and emits nothing. |
| MapItem.QQuickMapboxGL.CountParameters | platform/qt/src/qquickmapboxgl.cpp:282-286 | It returns the length of the parameter list. |
| MapItem.QQuickMapboxGL.ParameterAt | platform/qt/src/qquickmapboxgl.cpp:288-292 | It returns the parameter at a valid index `0 <= i < count`. |
| MapItem.QQuickMapboxGL.ClearParameter | platform/qt/src/qquickmapboxgl.cpp:294-300 | It yields `ViewSpec.ClearParameter`'s state (an empty list) and emits nothing. |

## Left out

- `createRenderer` and the friend class `QQuickMapboxGLRenderer`, which drains the mask and the change lists. Their source is not part of this model, and the draining is GPU-side rendering work.
- Qt's signal and slot plumbing. The `connect`/`disconnect` calls of `setStyle` and `itemChange` are not modelled. `emit` and `update()` appear only as entries of the ghost event log; the frame scheduling behind `update()` is not modelled.
- `itemChange`, the child attach and detach hook: Qt item lifecycle and `qobject_cast` type inspection.
- The ownership side of `setStyle`: `delete m_style` and `setParentItem`. The model keeps the style's identity and the flag behaviour.
- `setVisibleRegion` and `visibleRegion`: a write-only cache with no flag and no logic.
- The getters (`zoomLevel()`, `center()`, …): they return a field, and the class's fields are readable directly.
- `parameters()`, which only packages the four list callbacks into a `QQmlListProperty`.
- The empty loop of `clearParameter` does nothing and is not modelled. Whether the item owns the parameter objects is not decided in the source, so their release is not modelled either.
- Floating point: `qreal` is modelled as an exact real. NaN and infinite inputs are not modelled, nor is the rounding of the product `PITCH_MAX * RAD2DEG`. `std::fmod` is exact on finite doubles, so modelling it on reals loses nothing there.
- The values of `MIN_ZOOM`, `MAX_ZOOM`, `PITCH_MAX` and `RAD2DEG` from `mbgl/util/constants.hpp`: only `MIN_ZOOM <= 0`, `20 <= MAX_ZOOM` and a non-negative pitch maximum are assumed.
- The contents of a `QVariantMap` beyond its type tag, and of `QColor` and `QGeoCoordinate` beyond equality. A record's type is taken as the integer `params.value("type").toInt()` would read. `LayoutType = 0` and `PaintType = 1` follow the `QQuickMapboxGLStyleProperty` header, which is not part of this model.
- QMapbox's `MapChange` enumeration beyond `MapChangeDidFinishLoadingStyle`: every other change is one `OtherMapChange` case, since the item ignores them all.
- ViewSpec.Pan: `-dy` is taken on unbounded integers. The source negates a 32-bit `int`, which overflows for `dy = INT_MIN`; that one input is not modelled.
- MapItem.QQuickMapboxGL.Pan: the same `INT_MIN` negation is not modelled.
- Re-entrant notifications while the old style is destroyed, and concurrency in general: the item runs on one thread.
