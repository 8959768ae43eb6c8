# Feature-info popup plugin: formatter, orientation resolver and popup lifecycle

This project models the core of the `app_wmsgetfeatureinfo` map-tool plugin of
the SFpark web map (`app/static/script/app/plugins/WMSGetFeatureInfo.js`).
When a feature-info query returns a parking feature, the plugin renders an
HTML body for the feature and shows it in a popup anchored where the
pointer came to rest (the feature-info controls are created with
`hover: true`, so the query is sent when the pointer pauses over the map, not
on a click). The popup can be expanded and can show a street view panel. Closing
it after the street view was shown re-centres the map on the feature.

The model has four modules, one per component:

- `Templates` (`templates.dfy`) is the constant table of templates the
  constructor builds. There is one template per feature type
  (`BLOCKFACE_AVAILABILITY`, `OSP_AVAILABILITY`) and display mode
  (availability, pricing). There are also the rate-line and hour-line
  templates. `Lookup` fails for any other feature type, where the source
  dereferences an undefined table entry.
- `Formatter` (`formatter.dfy`) builds the HTML for one feature. It is the
  rendered feature template, then the rates block when a decoded rate schedule
  is present, then the hours block when decoded opening hours are present.
  Both blocks are specified as sequences of `Line`s, one per output line. Each
  line is a rate line, a restriction line or an hour line. This lets the
  line count and the line order be stated apart from the rendered text.
  `FormatFeature`, `FormatRates` and `FormatHours` build the string by
  appending inside loops, as the handler does. They are proved equal to the
  specification `FeatureInfoHtml`. The handler's single body is split into
  these three methods: the rates loops and the hours loop each get their own
  method.
- `Orientation` (`orientation.dfy`) is the heading resolver. It does a
  first-match scan over the feature's attributes, in iteration order, and
  compares upper-cased names.
- `Popup` (`popup.dfy`) holds the tool as a class. Its fields are `popup`,
  `streetview` and `feature`, plus the popup window and the map it changes.
  The tool also has two ghost fields. `popups` records every popup opened.
  `recentres` logs the map re-centring calls. The invariant `Valid()` says
  the current popup is the last one opened and no other popup is open.
  Three session methods (`DisplayTwice`, `StreetViewSession`,
  `PlainSession`) drive the lifecycle methods in turn, as a user would, and
  state what the sequence gives.

External operations are supplied as function values when the tool is
constructed:

- template substitution (`Ext.Template.applyTemplate`), as `render`;
- `toUpperCase`, as `upper`;
- the `Number` conversion, as `toNumber`;
- the centroid of a geometry, as `centroid`;
- the EPSG:4326-to-map reprojection, as `toMapProjection`.

The model states nothing about them beyond their being functions.

One consequence of the source's order of statements is modelled. The handler
records `features[0]` as the current feature before it looks up the template.
So an unknown feature type still replaces the current feature, and nothing
else changes. The session method `StaleFeatureSession` shows what follows:
after the street view was shown for feature `a`, a failed event for feature
`b` leaves the popup showing `a`, yet closing it re-centres the map on `b`'s
centroid.

## Model

| member | source | states |
|---|---|---|
| Templates.Lookup | app/static/script/app/plugins/WMSGetFeatureInfo.js:100-101 | the template lookup succeeds exactly for the feature types BLOCKFACE_AVAILABILITY and OSP_AVAILABILITY (in either mode), yields a non-empty template then, and otherwise fails with the missing pair |
| Templates.LookupInjective | app/static/script/app/plugins/WMSGetFeatureInfo.js:49-59 | the four registered (feature type, mode) pairs select four different templates |
| Formatter.FormatFeature | app/static/script/app/plugins/WMSGetFeatureInfo.js:98-131 | the appended HTML equals the specification: template error, or rendered template, rates block if a schedule is present, hours block if hours are present |
| Formatter.FormatRates | app/static/script/app/plugins/WMSGetFeatureInfo.js:103-117 | the nested loops over RS and each entry's RR produce exactly the rates block: header, the text of the rate lines, closing tags |
| Formatter.FormatHours | app/static/script/app/plugins/WMSGetFeatureInfo.js:120-131 | the hours loop (array) or single append (object) produces exactly the hours block: header, the text of the hour lines, closing tags |
| Formatter.RestrictionLinesShape | app/static/script/app/plugins/WMSGetFeatureInfo.js:110-114 | an RR list gives one restriction line per string, the k-th line holding the k-th string, and no rate or hour lines |
| Formatter.RateGroupShape | app/static/script/app/plugins/WMSGetFeatureInfo.js:107-114 | one RS entry gives one rate line for that entry plus its restriction lines, in RR order |
| Formatter.RateLinesShape | app/static/script/app/plugins/WMSGetFeatureInfo.js:104-116 | the rates block has as many lines as there are RS entries plus all their RR strings together; its rate lines are the RS entries in input order and its restriction lines are all RR strings in input order |
| Formatter.RateLinesAround | app/static/script/app/plugins/WMSGetFeatureInfo.js:106-115 | for any entry of a schedule, the earlier entries' lines come first, then that entry's rate line immediately followed by its restriction lines, then the later entries' lines |
| Formatter.HourLinesShape | app/static/script/app/plugins/WMSGetFeatureInfo.js:122-126 | an OPHRS array of n entries gives exactly n hour lines, the k-th for the k-th entry |
| Formatter.SingleHourAsOneElementArray | app/static/script/app/plugins/WMSGetFeatureInfo.js:122-129 | a single OPHRS object formats to the same HTML as a one-element array holding it |
| Formatter.FragmentOrder | app/static/script/app/plugins/WMSGetFeatureInfo.js:100-131 | the rendered template is a prefix of the HTML; the rates block follows it only when a schedule is present; the hours block ends the HTML only when hours are present; with neither, the HTML is the rendered template alone |
| Orientation.FirstMatch | app/static/script/app/plugins/WMSGetFeatureInfo.js:160-165 | the index found is the first whose upper-cased name equals the key; there is none exactly when no name matches |
| Orientation.Orientation | app/static/script/app/plugins/WMSGetFeatureInfo.js:157-168 | the orientation is 0 when the heading attribute name is empty or no name matches it case-insensitively, and otherwise the converted value of the first matching attribute |
| Orientation.OrientationForFeature | app/static/script/app/plugins/WMSGetFeatureInfo.js:157-168 | the loop with its early break computes the orientation specified above |
| Orientation.LaterAttributesIgnored | app/static/script/app/plugins/WMSGetFeatureInfo.js:161-164 | once some attribute matches, appending further attributes (matching or not) does not change the orientation |
| Popup.PopupWindow.constructor | app/static/script/app/plugins/WMSGetFeatureInfo.js:212-226 | a new popup is open, 200 by 100, anchored at the event position with the given body, "+" shown, "X" hidden, no panels |
| Popup.FeatureInfoTool.constructor | app/static/script/app/plugins/WMSGetFeatureInfo.js:28-34 | the heading attribute name is the configured one, or "ORIENTATION" by default; no popup, feature or street view yet |
| Popup.FeatureInfoTool.OnFeatureInfo | app/static/script/app/plugins/WMSGetFeatureInfo.js:95-133 | an event without features changes nothing; otherwise features[0] becomes the current feature, and either its HTML is displayed in a fresh popup or, for an unknown feature type, the error is returned and nothing else changes |
| Popup.FeatureInfoTool.DisplayPopup | app/static/script/app/plugins/WMSGetFeatureInfo.js:207-227 | the previous popup is closed, the street view flag is reset, and a fresh popup is the only open one, at 200 by 100 with "+" shown and "X" hidden (so never expanded) |
| Popup.FeatureInfoTool.ExpandInfo | app/static/script/app/plugins/WMSGetFeatureInfo.js:182-190 | "+" hidden, "X" shown, size 300 by 200; the tool's fields, including the current feature, are untouched |
| Popup.FeatureInfoTool.ShowStreetView | app/static/script/app/plugins/WMSGetFeatureInfo.js:170-180 | the street view flag is set, a panel at the feature's centroid with the resolved orientation is added, size 800 by 300; the current feature is untouched |
| Popup.FeatureInfoTool.ClosePopup | app/static/script/app/plugins/WMSGetFeatureInfo.js:192-200 | the popup is closed; the map is re-centred exactly once, on the feature's reprojected centroid, iff the street view flag is set, and is unchanged otherwise; the flag and the popup reference are kept |
| Popup.DisplayTwice | app/static/script/app/plugins/WMSGetFeatureInfo.js:207-226 | two displays in a row leave exactly one popup open, the second one, collapsed, with the street view flag reset |
| Popup.StreetViewSession | app/static/script/app/plugins/WMSGetFeatureInfo.js:170-200 | display, expand, street view, close: the map is re-centred exactly once, on the feature's reprojected centroid |
| Popup.StaleFeatureSession | app/static/script/app/plugins/WMSGetFeatureInfo.js:95-200 | after street view for feature a, an event for feature b whose type has no template leaves the popup showing a's HTML, but closing re-centres the map once, on b's reprojected centroid |
| Popup.PlainSession | app/static/script/app/plugins/WMSGetFeatureInfo.js:182-200 | display, expand, close without the street view: the map centre is unchanged and no re-centring happens |

## Left out

- Layer-change wiring in `addActions` (lines 66-149) is not modelled. This covers creating and destroying the WMS feature-info controls and the `update`, `add` and `remove` listeners. It is event plumbing over the mapping toolkit; the model starts at the handler.
- JSON decoding of `RATE_SCHED` and `OP_HRS` (lines 99 and 119) is not modelled. A feature carries the decoded values, with `None` for a falsy result. A decoding exception is not modelled. Neither is a truthy schedule without an `RS` array, or hours without an `OPHRS` member.
- Formatter.Rate: an `RR` value that is not an array is not represented. The loop at lines 110-113 runs over `rate["RR"].length` for any truthy `RR`, so a bare string would give one `<br/>`-terminated line per character, and a truthy object without `length` would give none; the model only has a list of restriction strings.
- Formatter.Rate: the rate line is rendered from the entry's scalar fields only, while line 108 renders the whole entry, `RR` included. This assumes the rate template, whose placeholders are TIME, DESC and RATE, does not depend on `RR`.
- Template substitution is not modelled. It is the `render` function value, so placeholder handling (such as missing keys rendering empty) is not stated.
- The `Number` conversion is the `toNumber` function value into reals. NaN and floating-point rounding are not represented.
- The centroid and the EPSG:4326 reprojection are function values. Geometry is modelled only as a list of vertices.
- The display mode is one of the two constants. A mode outside them, which would also leave the template undefined, is not modelled, because the constants' values are defined outside this file.
- A heading attribute set to `null` or `undefined` is represented by the empty string, which JavaScript treats as falsy in the same way.
- DOM and widget effects are not modelled. These are toggling the `fullDisplay` class (line 183), wiring the click handler of the `#streetview` link (lines 184-186), the street view widget itself (only its location and orientation are kept), `panIntoView` (line 179), the other popup configuration options (lines 213-223) and plugin registration (line 231). So the model does not track whether the street view link exists or was wired, and `ShowStreetView` may be called on any current popup.
- Popup.FeatureInfoTool.ExpandInfo, Popup.FeatureInfoTool.ShowStreetView and Popup.FeatureInfoTool.ClosePopup require a current popup. They are toolbar and link handlers of that popup, and the source would fail on a missing one.
- The order in which `for ... in` visits an object's attributes is not modelled. The attributes are given as a sequence already in that order.
